# fuga, modelled in Dafny

fuga is a command-line tool that bootstraps and deploys machine-learning
"experiments" on Google Cloud. It has three parts:
- `fuga environment init` picks a GCP project, a GCS bucket and a Cloud Composer (Airflow) environment, then stores the choices in `~/.fuga/config.yml`;
- `fuga experiment new` and `fuga operator new` generate code from cookiecutter templates;
- `fuga experiment deploy` uploads an experiment's DAG files to the environment's bucket.

A Python helper library (`fuga.airflow`, `fuga.gcs`) derives the operator names, BigQuery tables and GCS keys that an experiment's DAG uses.

This project models that core and proves properties of it.

| module | models |
|---|---|
| `Config` (config.dfy) | The configuration store: class `Store` with the in-memory map and the file contents. Its start-up rule chooses the home path and the initial map. `get_config` gives a `FUGA_<KEY>` override precedence. `write_config` updates one key in place and persists the whole map. Also `validate_config`. |
| `EnvironmentInit` (environment_init.dfy) | `fuga environment init` as a state machine over a transcript of typed lines. It covers the credentials wrapper, the project menu, the paged bucket and environment choosers (methods with buffer loops, proved equal to page-by-page functions) and `run()` with its `config_overrides` write loop. |
| `Composer` (composer.dfy) | fuga's Composer `Environment` class: the name/path rule of its constructor, `id`, `from_api_repr` and `set_properties_from_api_repr`. |
| `ExperimentCli` (experiment.dfy) | `fuga experiment new`'s cookiecutter arguments, and `fuga experiment deploy`: the state and prefix checks, the `gs://` URL split, the `.git` ignore rule, the ordered upload plan (nested loops), confirmation, and the upload loop on class `GcsBucket`. |
| `Airflow` (airflow.dfy) | The DAG helpers' derivations: task ids, table references, dataset reference, export URIs, the pod image and task id, and `get_dag`'s default arguments. Also the exception each of `get_dag` and the pod-operator factory raises. Includes the maybe-create-dataset `execute` on class `DatasetCatalog`. |
| `Gcs` (gcs.dfy) | The blobs `save_df` and `get_exported_table_df` address, and how they relate to the export operator. |
| `Utils`, `PodOperatorCli` (utils.dfy, pod_operator.dfy) | The two `find_experiment_root_dir` loops over a filesystem map, and `fuga operator new`'s argument defaulting. |
| `Strings`, `Paths`, `Urls`, `Prompt`, `Wrappers` | Python's `str` builtins restricted to ASCII, `re.sub(r'\s+', '_', s)`, `os.path.join`/`basename`/`dirname`, `urllib.parse.urlparse` (Python 3.9), click 7 `prompt`/`confirm` over a transcript, and `Option`/`Result`. |

Inputs stand in for what the program gets from outside:
- The remote services are the `Cloud` value. It holds each listing as a finite sequence, plus whether fetching past its end raises, and the result of each eager look-up (`Granted`, `Forbidden`, another API error).
- The terminal is a sequence of typed lines. An empty line means Enter, and running out of lines is end of input (click's `Abort`, exit status 1).
- The process environment is a map.
- The filesystem is a map from directory to the names it contains.
- The results of `glob.iglob` are a function from pattern to the sequence of paths.
- The clock's reading and the `notification_email_address` Airflow Variable are parameters.
- The bucket `get_bucket` returns during deploy is a `GcsBucket` object.

Outcomes of `environment init` are modelled as follows:
- `Ok` carries the remaining input.
- `Exit(code)` is `sys.exit` or click's abort.
- `Crash(fault)` names the uncaught exception: a failed `assert`, an `IndexError`, an attribute access on `None`, or an API error.

Where the code differs from its documented intent, the model follows the code:
- An invalid menu choice fails the `assert` rather than asking again.
- An empty bucket listing offers no creation. The chooser returns `None`, and `bucket.name` then raises.
- Nothing is written until all three stages succeed.
- The bucket listing is not scoped to the chosen project.
- The project id prompt is typed `int`. Because of this, a typed id that is not an integer is asked again, while Enter returns the derived text default unconverted.

## Model

| member | source | states |
|---|---|---|
| EnvironmentInit.CallWithCredentialsCatch | fuga/cli/environment.py:11-22 | a granted call's result is returned unchanged; `Forbidden` becomes exit status 1; any other API error propagates |
| EnvironmentInit.DefaultProjectId | fuga/cli/environment.py:76-78 | the offered id is no longer than the name and holds neither whitespace nor upper-case letters |
| EnvironmentInit.DefaultProjectIdOfTwoWords | fuga/cli/environment.py:76-78 | two words separated by any whitespace run give `<w1>_<w2>`, lower-cased: the run collapses to a single `_` |
| EnvironmentInit.NewProject | fuga/cli/environment.py:73-81 | creation asks for a non-empty display name, then an id; end of input exits with status 1; a typed integer id is represented by its decimal text |
| EnvironmentInit.NewProjectTyped | fuga/cli/environment.py:73-81 | a name then Enter creates `Project(DefaultProjectId(name), name)`; a name then a typed integer k creates the project whose id is k, represented by its decimal text `Decimal(k)`; the input after the two lines is left unread |
| EnvironmentInit.SetupGcpProject | fuga/cli/environment.py:51-102 | a listed pick is one of the listed projects; exit 0 only when nothing was listed; an assertion failure only on a non-empty menu; an error while listing propagates exactly when the listing is interrupted |
| EnvironmentInit.ProjectMenuChoice | fuga/cli/environment.py:56-81 | typing k in 1..n selects `projects[k-1]`, 0 goes to creation, and any other integer fails the assertion |
| EnvironmentInit.NoProjectsDecline | fuga/cli/environment.py:82-100 | with no project listed, answering no (or Enter) at the confirmation exits with status 0 |
| EnvironmentInit.PyIndex | fuga/cli/environment.py:152-154 | Python indexing: defined exactly for -len..len-1, negative indices count from the end, the value is an element |
| EnvironmentInit.LocationChoice | fuga/cli/environment.py:26-46 | 20 locations; choice c in 1..20 is the c-th; 0 wraps to `australia-southeast1`; above 20 or below -19 raises `IndexError` |
| EnvironmentInit.NewBucket | fuga/cli/environment.py:137-160 | a created bucket sits at one of the 20 locations and in the chosen project; the only crash is the location `IndexError` |
| EnvironmentInit.NewBucketTyped | fuga/cli/environment.py:137-160 | a name then choice c in 1..20 creates the bucket with that name at `_STORAGE_LOCATIONS[c-1]` in the chosen project; Enter takes `northamerica-northeast1`; c above 20 raises `IndexError` |
| EnvironmentInit.SetupGcsBucket | fuga/cli/environment.py:104-205 | the item-by-item buffer loop (menu at 10, reset on "next", final menu for the remainder) gives exactly the page-by-page chooser `ChooseBucket`; the buffer never reaches 10 between menus |
| EnvironmentInit.BucketPageChoice | fuga/cli/environment.py:113-141 | on a full page, k in 1..10 picks `candidates[k-1]`, 11 moves on to the rest of the listing, 0 creates a bucket, and anything else fails the assertion |
| EnvironmentInit.BucketRemainderChoice | fuga/cli/environment.py:162-183 | on the final short page, k in 1..n picks, 0 creates, and n+1 or anything else fails the assertion |
| EnvironmentInit.NoBucketOnlyAtPageBoundary | fuga/cli/environment.py:162-205 | no bucket comes back only when the listing ended cleanly at a multiple of 10 (including an empty listing, which always gives none) |
| EnvironmentInit.ChooseBucket | fuga/cli/environment.py:104-205 | the page-by-page reading of the bucket chooser; `SetupGcsBucket` is proved to compute it, and the rows below state its properties |
| EnvironmentInit.ChosenBucketIsListedOrCreated | fuga/cli/environment.py:104-205 | a returned bucket is a listed one, or a new one at one of the 20 locations in the chosen project |
| EnvironmentInit.SetupComposerEnvironment | fuga/cli/environment.py:207-263 | the buffer loop over the listing for (project, location) gives exactly the page-by-page chooser `ChooseEnvironment` |
| EnvironmentInit.ChooseEnvironment | fuga/cli/environment.py:207-263 | the page-by-page reading of the environment chooser; `SetupComposerEnvironment` is proved to compute it |
| EnvironmentInit.ChosenEnvironmentIsListed | fuga/cli/environment.py:207-263 | a returned environment is always a listed one: the chooser never creates |
| EnvironmentInit.EnvironmentMenuChoice | fuga/cli/environment.py:233-261 | full page: 1..10 picks, 11 moves on, anything else (0 included) fails the assertion; short page: only 1..n is accepted |
| EnvironmentInit.ResolveProject | fuga/cli/environment.py:267-274 | a truthy `gcp_project_id` is fetched through the wrapper and not marked for writing; otherwise the project menu's pick is marked |
| EnvironmentInit.ResolveBucket | fuga/cli/environment.py:276-282 | a truthy `gcs_bucket_name` is fetched; otherwise the chooser's bucket is marked, and no bucket crashes on `bucket.name` |
| EnvironmentInit.ResolveEnvironment | fuga/cli/environment.py:284-293 | a truthy path is fetched; otherwise the listing for the project and the bucket's lower-cased location is offered, and no environment crashes on `full_path` |
| EnvironmentInit.WriteAll | fuga/cli/environment.py:296-297 | writing the overrides in order leaves the map `Written(old, overrides)` and the file holding the whole map |
| EnvironmentInit.RunSpec | fuga/cli/environment.py:265-293 | the three stages in order, each abandoning the run on failure; the overrides list a key only for a stage that chose; `Run` is proved to compute it, and the rows below state its properties |
| EnvironmentInit.Run | fuga/cli/environment.py:265-297 | the outcome is `RunSpec` of the three configured values as `get_config` reads them; on success the map is the old one with the overrides written in order and the file holds it; on any failure the store is unchanged |
| EnvironmentInit.RunWritesExactlyTheUnconfiguredKeys | fuga/cli/environment.py:265-297 | the written keys are exactly the ones not truthily configured, each with the chosen resource's id, name or full path, each once |
| EnvironmentInit.RunStoresChoices | fuga/cli/environment.py:265-297 | afterwards an unconfigured key holds the chosen value, and a configured key is as it was |
| EnvironmentInit.WrittenLookup | fuga/config/__init__.py:65-66 | writing pairs with distinct keys leaves each key holding its value and every other key untouched |
| EnvironmentInit.RunUsesConfiguredOrListedResources | fuga/cli/environment.py:265-293 | configured resources are what the look-ups returned; a chosen bucket was listed or created; a chosen environment is in the listing for the project and the lower-cased bucket location |
| EnvironmentInit.ForbiddenProjectExits | fuga/cli/environment.py:267-271 | a configured project the credentials may not read exits with status 1 before any prompt |
| EnvironmentInit.EmptyBucketListingCrashes | fuga/cli/environment.py:162-205 | with no bucket configured and none listed, `run()` crashes on `bucket.name`: no creation is offered |
| Config.Store.Load | fuga/config/__init__.py:8-40 | the home is `$FUGA_HOME`, else `<~>/.fuga` or `/tmp/.fuga`; a readable file gives its map; a malformed one gives `{}`; a missing one gives exactly the two `FUGA_GCP_PROJECT_ID`/`FUGA_GCS_BUCKET_NAME` entries, which are written; the defaults survive only if the file holds them |
| Config.Store.Write | fuga/config/__init__.py:65-69 | sets the key, keeps every other key, and the file then holds the whole map |
| Config.Store.Validate | fuga/config/__init__.py:43-53 | valid iff both keys hold values in the in-memory map; exit 1 iff a present key is `None` in `or` order; `KeyError` on a missing key; overrides are not consulted |
| Config.Lookup | fuga/config/__init__.py:56-62 | `get_config`: a set `FUGA_<KEY>` variable gives its value; otherwise the stored value; `None` only when there is no override and the key is absent or stored as `None` |
| Config.OverrideWins | fuga/config/__init__.py:56-62 | a set `FUGA_<KEY>` variable is the answer whatever the map holds |
| Config.StoredValueWithoutOverride | fuga/config/__init__.py:56-62 | without the variable, the answer is the stored value, or `None` for an absent key |
| Config.WriteThenLookup | fuga/config/__init__.py:56-66 | after a write, the key reads back its value unless overridden, and other keys read as before |
| Config.HomeAndPath | fuga/config/__init__.py:14-25 | without `$FUGA_HOME` the home is `<home>/.fuga` or `/tmp/.fuga`, and the configuration file is always `config.yml` in it |
| Composer.ResolveIdentity | fuga/google/cloud/composer/environment.py:52-72 | `ValueError` iff neither name nor path is given, or a name lacks project or location, or a given path differs from the derived one (and which of the three); a given path is kept; a name derives the path; a path alone gives its basename as the name |
| Composer.FullPathShape | fuga/google/cloud/composer/environment.py:59-65 | for plain segments the derived path is `projects/<p>/locations/<l>/environments/<n>` |
| Composer.NameRoundTrip | fuga/google/cloud/composer/environment.py:59-72 | the basename of the path derived from a slash-free name is that name |
| Composer.Environment.Init | fuga/google/cloud/composer/environment.py:45-50 | the fields start as given, with no state or config yet |
| Composer.Environment.New | fuga/google/cloud/composer/environment.py:37-72 | construction fails exactly when `ResolveIdentity` does, with the same error; otherwise a new object with the resolved name and path and the given uuid, project and location |
| Composer.Environment.SetPropertiesFromApiRepr | fuga/google/cloud/composer/environment.py:88-90 | sets state and config from the resource and changes nothing else |
| Composer.Environment.Id | fuga/google/cloud/composer/environment.py:74-77 | `id` is an alias of `uuid` |
| Composer.Environment.FromApiRepr | fuga/google/cloud/composer/environment.py:74-86 | the path is the resource's `name`, the short name its basename, `id` its uuid, state and config its own |
| ExperimentCli.NewExperimentCall | fuga/cli/experiment.py:46-49 | the context is exactly `{experiment_name: name}`; a non-empty output dir is used, else the cwd |
| ExperimentCli.NewExperimentIgnoresExtraContext | fuga/cli/experiment.py:46-49 | the passed `extra_context` has no effect on the call |
| ExperimentCli.IsIgnored | fuga/cli/experiment.py:146-151 | `_is_ignored` with the one default pattern `.*/.git/.*`, matched from the start with `.` not crossing a newline; the four rows below state what it accepts and rejects |
| ExperimentCli.GitDirectoryIgnored | fuga/cli/experiment.py:146-151 | any path inside a `/.git/` directory (with no newline before it) is ignored |
| ExperimentCli.AnyCharacterBeforeGitIgnored | fuga/cli/experiment.py:146-151 | the unescaped `.` lets any non-newline character stand before `git/`, so `/xgit/` is ignored too |
| ExperimentCli.WithoutGitNotIgnored | fuga/cli/experiment.py:146-151 | a path without `git/` anywhere is never ignored |
| ExperimentCli.NewlineBeforeGitNotIgnored | fuga/cli/experiment.py:146-151 | `re.match`'s `.` does not cross a newline, so `a\n/.git/` is not ignored |
| ExperimentCli.SliceFrom | fuga/cli/experiment.py:128 | Python's `s[k:]`: the rest after the first k characters, or empty past the end |
| ExperimentCli.RemotePathShape | fuga/cli/experiment.py:125-128 | a file `<root>/<rel>` goes to `<prefix>/<experiment>/<rel>` |
| ExperimentCli.AppendTargetPairs | fuga/cli/experiment.py:120-129 | the inner loop appends exactly `TargetPairs` of one target's files |
| ExperimentCli.BuildPairs | fuga/cli/experiment.py:118-129 | the nested loops build exactly `Plan` over `py`, `sql`, `pod_operators` |
| ExperimentCli.TargetPairsAppend | fuga/cli/experiment.py:120-129 | filtering works file by file and keeps discovery order |
| ExperimentCli.TargetPairsSound | fuga/cli/experiment.py:120-129 | every pair is a listed, non-ignored file with its remote path, and every such file has its pair |
| ExperimentCli.Plan | fuga/cli/experiment.py:118-129 | the upload pairs, target by target in glob order; `BuildPairs` is proved to compute it |
| ExperimentCli.PlanGroupsByTarget | fuga/cli/experiment.py:118-129 | the plan is the `py` group, then `sql`, then `pod_operators` |
| ExperimentCli.PlanSoundAndComplete | fuga/cli/experiment.py:118-129 | no ignored path is planned, and every non-ignored file of every target is, with its remote path |
| ExperimentCli.GcsBucket.Upload | fuga/cli/experiment.py:143-144 | one upload of (local, key) is appended |
| ExperimentCli.DeployTarget | fuga/cli/experiment.py:98-115 | refused as not running iff the state is not `RUNNING`, naming the environment by the basename of its resource path and giving its state; refused for the prefix iff running and `dagGcsPrefix` is missing or empty; otherwise the bucket is the prefix URL's netloc and the prefix is its path without the leading slash |
| ExperimentCli.DeployTargetOfGsPrefix | fuga/cli/experiment.py:113-115 | `gs://<bucket>/<prefix>` gives bucket `<bucket>` and prefix `<prefix>`: the path without its leading slash |
| ExperimentCli.DeploySpec | fuga/cli/experiment.py:90-144 | refused exactly when `DeployTarget` refuses, with its error; a deployment goes to `DeployTarget`'s bucket with the `Plan` under its prefix |
| ExperimentCli.Deploy | fuga/cli/experiment.py:90-144 | the outcome is `DeploySpec`; when deployed, the bucket received exactly the plan's uploads in plan order; otherwise nothing was uploaded |
| ExperimentCli.UploadAll | fuga/cli/experiment.py:142-144 | one upload per pair, in order |
| ExperimentCli.DeclineAborts | fuga/cli/experiment.py:139-140 | declining the confirmation aborts before any upload |
| Airflow.DagConfigOf | fuga/airflow.py:154-155 | the helpers read `experiment_name`, `gcp_project_name` and `bucket_name` through `get_config` |
| Airflow.Render | fuga/airflow.py:154-155 | `format` of a configuration value: the text, or `None` for a missing one |
| Airflow.BqToBq | fuga/airflow.py:127-170 | the bq_to_bq operator's task id, query and destination; the two rows below state their shape and injectivity |
| Airflow.BqToBqDestinationIsDatedTable | fuga/airflow.py:149-170 | the destination is `<project>:<exp>_database.<table>{{ ds_nodash }}`, the task id `<exp>.<table>.bq_to_bq` |
| Airflow.BqToBqDistinctTables | fuga/airflow.py:149-170 | equal destinations, or equal task ids, come only from equal table names |
| Airflow.ExpirationMsRoundTrip | fuga/airflow.py:175-207 | the expiration text reads back as seconds*1000; the default is 31 days |
| Airflow.MaybeCreateDataset | fuga/airflow.py:175-207 | the project is `gcp_project_name`; the reference has exactly the description (left unformatted) and the two expirations, which read back as seconds*1000 |
| Airflow.BqToBqWritesIntoCreatedDataset | fuga/airflow.py:154-201 | bq_to_bq writes into the project and dataset the maybe-create step makes |
| Airflow.DatasetIds | fuga/airflow.py:61-64 | an id is listed iff some dataset of that project has it |
| Airflow.DatasetCatalog.CreateEmptyDataset | fuga/airflow.py:67-70 | the new dataset is appended |
| Airflow.Execute | fuga/airflow.py:54-70 | the catalog becomes `EnsureDataset` of the old one: unchanged when the id is listed, else with the dataset added |
| Airflow.EnsureDataset | fuga/airflow.py:61-70 | the datasets after one `execute`: unchanged when the id is listed for the project, else with the dataset appended; the two rows below state its properties |
| Airflow.EnsureDatasetPresent | fuga/airflow.py:61-70 | afterwards the id is listed; nothing is removed and at most one dataset is added |
| Airflow.EnsureDatasetIdempotent | fuga/airflow.py:61-70 | a second `execute` creates nothing |
| Airflow.ExportTable | fuga/airflow.py:243-250 | the export has a single destination URI |
| Airflow.ExportReadsBqToBqTable | fuga/airflow.py:236-240 | the export reads the table bq_to_bq writes, in standard rather than legacy notation |
| Airflow.GetDag | fuga/airflow.py:254-270 | a set `notification_email_address` raises `NameError` on `defaualt_args`; otherwise the arguments are the three defaults overridden by `xargs`, with `start_date` falling back to today, and catch-up off; the dag id is `<exp>_dag` |
| Airflow.ImageTag | fuga/airflow.py:313 | `image_tag or 'LATEST'` |
| Airflow.PodImage | fuga/airflow.py:301-311 | an image exists iff exactly one of name and image is given; a given image is used verbatim; a given operator name gives `gcr.io/<project>/<exp>_<op>` |
| Airflow.PodTaskId | fuga/airflow.py:317-320 | `<exp>_<op>`: the experiment part, then `_`, then the operator part, each character for character with every `-` turned into `_` |
| Airflow.PodOperatorFailure | fuga/airflow.py:301-323 | the factory raises for neither-or-both exactly when it should; `.replace` on `None` exactly when the experiment or operator name is missing; otherwise `KeyError('image_tag')` from the pod name |
| Airflow.ImageOnlyFails | fuga/airflow.py:310-320 | given only an image, the image is taken verbatim, and then the task id fails on the missing operator name |
| Gcs.SaveDf | fuga/gcs.py:18-31 | the blob is in `gcp_project_name`'s client and `bucket_name`'s bucket, under key `SaveDfKey`, which is returned |
| Gcs.DateSegment | fuga/gcs.py:53 | `date or '{{ ds_nodash }}'` |
| Gcs.ExportedTable | fuga/gcs.py:45-53 | the blob read is in the configured project and bucket, under `ExportedTableKey` |
| Gcs.ReadIsExportDestination | fuga/gcs.py:48-53 | without a date, the read key is the object path of the export operator's destination URI |
| Gcs.ExportDestinationSplitsIntoBucketAndKey | fuga/gcs.py:45-53 | parsed by `urlparse`, the export URI's netloc is the bucket read and its path without the slash is the key read |
| Gcs.SaveDfKey | fuga/gcs.py:20-24 | `<exp>/output/{{ ds_nodash }}/<name>.csv`; the rows below state its injectivity and its disjointness from exported tables |
| Gcs.ExportedTableKey | fuga/gcs.py:48-53 | `<exp>/exported_tables/<table>/<date>/out.csv.gzip`, with the date falling back to the template |
| Gcs.DagExportedTable | fuga/airflow.py:99-124 | the DAG-side reader: project `gcp_project_name`, bucket `gcs_bucket_name` (not `bucket_name`), and the undated `ExportedTableKey` |
| Gcs.DagReaderMatchesExportIff | fuga/airflow.py:110-118 | the DAG-side reader reads the blob the export writes (and the `fuga.gcs` reader reads) iff `gcs_bucket_name` and `bucket_name` read the same |
| Gcs.SaveDfKeysDistinct | fuga/gcs.py:20-24 | different names give different keys |
| Gcs.OutputsAndExportsDisjoint | fuga/gcs.py:20-53 | a saved output never has the key of an exported table |
| Utils.FirstWithMarker | fuga/utils.py:17-26 | stops at the first candidate holding `fuga.yml` or failing to list; raises "not found" iff every candidate lists without it |
| Utils.Candidates | fuga/utils.py:15-28 | the cwd, then its parent only when `max_depth >= 1` |
| Utils.FindExperimentRootDir | fuga/utils.py:13-28 | the loop's result is `FirstWithMarker` over `Candidates` and it terminates; the directories it lists are a prefix of the candidates, all of them on "not found", and the result names the last one listed |
| Utils.FoundIsCwdOrParent | fuga/utils.py:28 | a found directory is the cwd or its parent, a prefix of the cwd |
| Utils.MarkerInCwdFound | fuga/utils.py:18-19 | a marker in the cwd is found there |
| Utils.NonPositiveDepthOnlyCwd | fuga/utils.py:21 | with `max_depth <= 0` only the cwd is inspected |
| Utils.GrandparentNeverInspected | fuga/utils.py:21-27 | however large `max_depth` is, a marker only in the grandparent is never found |
| PodOperatorCli.Candidates | fuga/cli/pod_operator.py:29-42 | the cwd once, or twice when `max_depth >= 1` |
| PodOperatorCli.FindExperimentRootDir | fuga/cli/pod_operator.py:28-42 | the loop's result is `FirstWithMarker` over the cwd listed at most twice |
| PodOperatorCli.OnlyCwdDecides | fuga/cli/pod_operator.py:29-42 | the result is the cwd, "not found", or a listing error, decided by the cwd alone |
| PodOperatorCli.Run | fuga/cli/pod_operator.py:44-63 | the context is exactly `{operator_name: name}`; a non-empty output dir is used without a search; otherwise `<cwd>/operators` when the search succeeds, or the search's exception |
| Prompt.AskIntTyped | fuga/cli/environment.py:67 | typing the decimal form of k at an integer prompt answers k |
| Urls.GsUrl | fuga/cli/experiment.py:113 | `urlparse('gs://<bucket>/<prefix>')` has scheme `gs`, netloc `<bucket>`, path `/<prefix>` |
| Urls.GsUrlWithoutPath | fuga/cli/experiment.py:113-115 | `gs://<bucket>` has an empty path, so the prefix is empty |

## Left out

- The Google client libraries (resource_manager, storage, the BigQuery hook and cursor) and fuga's Composer `client.py`/`_http.py`: their results are inputs. In particular, `list_environments` builds a hard-coded path (fuga/google/cloud/composer/client.py:70) and has no `location=` keyword, so the call at fuga/cli/environment.py:214 would raise `TypeError`. The model takes the listing as given for the project and location.
- `project.create()` and `bucket.create()` are not modelled, and neither are their failures (such as a 409 conflict). A created project or bucket is a value.
- click's message text and echo output. Prompts are a transcript of typed lines.
- cookiecutter (modelled only as the arguments it receives), git clone (fuga/utils.py:35-46), docker, pandas CSV, the bytes of GCS uploads and downloads, YAML load/dump (the file is modelled as holding the map), and `os.makedirs` of the home directory.
- Airflow operator and DAG construction itself. The factories are modelled as the values they derive and the exception they end in. The pod name (fuga/airflow.py:321-323) is modelled only as the `KeyError` it raises.
- `get_dag`'s `schedule_interval`, and the type of `datetime.today()`: the clock reading is a text parameter.
- Airflow.DatasetIds: `get_datasets_list(project_id=None)` lists the hook's default project. The model treats a `None` project id as a project of its own.
- The WIP creation code (fuga/google/cloud/composer/environment.py:105-144).
- fuga/cli/__init__.py (click routing), fuga/cli/deploy.py, fuga/experiment.py (`Experiment.from_path`; the experiment name is a parameter) and setup.py are not part of this model.
- `save_df` in fuga/airflow.py:73-96 is the same as the one in fuga/gcs.py:8-31 and is not modelled separately. The `get_exported_table_df` of fuga/airflow.py:99-124 differs from the one in fuga/gcs.py: it reads the bucket `gcs_bucket_name` and has no date parameter; it is `Gcs.DagExportedTable`.
- Strings.Upper, Strings.Lower: only ASCII letters change case. Unicode case mapping is not modelled.
- Strings.IsSpace: `\s` is limited to the six ASCII whitespace characters. Python's `\s` on `str` also matches U+001C–U+001F, U+0085, U+00A0 and the other Unicode whitespace.
- Strings.ParseInt: `int()` is modelled on an optional sign and ASCII digits. It does not accept surrounding whitespace or `_` separators.
- Prompt.Confirm: click strips the answer before comparing it; the model compares the typed line as is.
- Config.ExpandUser: only `~` and `~/…` are expanded. `~user` is not.
- Urls.UrlParse: the stripping of C0 control characters and tabs by newer `urlsplit` versions is not modelled, nor are differences in Python versions before 3.9.
- Paths: `join` is modelled for two arguments (nested for more). Paths are `/`-separated POSIX strings.
- EnvironmentInit.NewProject: a typed project id is a Python `int` in the source (fuga/cli/environment.py:75-78), and the model keeps its decimal text. This loses the `int` type of the stored `gcp_project_id`. It also loses that a stored `0` reads back falsy at fuga/cli/environment.py:267: the model's `"0"` is truthy and is fetched instead of re-running the menu. Nor does it capture that an `int` id reaches the client constructors (:209).
- EnvironmentInit.NewBucket: bucket names are not validated.
- ExperimentCli.Deploy: the `get_bucket` call before the plan is built is not modelled. Its result is the `bucket` parameter, and its failures are not modelled.
