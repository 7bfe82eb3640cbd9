/**
 * The DAG helpers an experiment's DAG file calls: the names, table
 * references and keys each operator factory derives from the
 * configuration, the "create the dataset only if absent" step, and which
 * exception the DAG and pod-operator factories end in.
 */
module Airflow {
  import opened Wrappers
  import Strings
  import Config

  /** The three configuration values the helpers read. */
  datatype DagConfig = DagConfig(experimentName: Option<string>, projectName: Option<string>, bucketName: Option<string>)

  function DagConfigOf(s: Config.Settings): (c: DagConfig)
    ensures c.experimentName == s.Get("experiment_name")
    ensures c.projectName == s.Get("gcp_project_name")
    ensures c.bucketName == s.Get("bucket_name")
  {
    DagConfig(s.Get("experiment_name"), s.Get("gcp_project_name"), s.Get("bucket_name"))
  }

  /** `'{}'.format(v)` of a configuration value: `None` renders as `None`. */
  function Render(v: Option<string>): (r: string)
    ensures v.Some? ==> r == v.value
    ensures v.None? ==> r == "None"
  {
    match v
    case Some(s) => s
    case None => "None"
  }

  /** The Airflow macro every helper puts where the run date goes. */
  const DateDescriptor := "{{ ds_nodash }}"

  /** `'{experiment_name}_database'` */
  function DatasetName(c: DagConfig): string
  {
    Render(c.experimentName) + "_database"
  }

  /** A BigQuery table reference: `project:dataset.table` (legacy) or `project.dataset.table` (standard). */
  datatype TableRef = TableRef(project: string, dataset: string, table: string)

  function LegacyRef(t: TableRef): string
  {
    t.project + ":" + t.dataset + "." + t.table
  }

  function StandardRef(t: TableRef): string
  {
    t.project + "." + t.dataset + "." + t.table
  }

  // ---------------------------------------------------------------------
  // get_bq_to_bq_operator

  datatype BqToBqOperator = BqToBqOperator(taskId: string, sql: string, destination: string)

  function BqToBq(c: DagConfig, sql: string, table: string): BqToBqOperator
  {
    var dated := table + DateDescriptor;
    BqToBqOperator(
      Render(c.experimentName) + "." + table + ".bq_to_bq",
      sql,
      Render(c.projectName) + ":" + DatasetName(c) + "." + dated)
  }

  /** The destination is the dated table of the experiment's dataset, in the project, as a legacy reference. */
  lemma BqToBqDestinationIsDatedTable(c: DagConfig, sql: string, table: string)
    ensures BqToBq(c, sql, table).destination == LegacyRef(TableRef(Render(c.projectName), DatasetName(c), table + DateDescriptor))
    ensures BqToBq(c, sql, table).taskId == Render(c.experimentName) + "." + table + ".bq_to_bq"
  {
  }

  /** Equal destinations, or equal task ids, mean equal tables: each table has its own. */
  lemma BqToBqDistinctTables(c: DagConfig, sql1: string, sql2: string, t1: string, t2: string)
    ensures BqToBq(c, sql1, t1).destination == BqToBq(c, sql2, t2).destination ==> t1 == t2
    ensures BqToBq(c, sql1, t1).taskId == BqToBq(c, sql2, t2).taskId ==> t1 == t2
  {
    var head := Render(c.projectName) + ":" + DatasetName(c) + ".";
    if BqToBq(c, sql1, t1).destination == BqToBq(c, sql2, t2).destination {
      assert BqToBq(c, sql1, t1).destination == head + t1 + DateDescriptor;
      assert BqToBq(c, sql2, t2).destination == head + t2 + DateDescriptor;
      Strings.CancelAround(head, t1, t2, DateDescriptor);
    }
    var exp := Render(c.experimentName) + ".";
    if BqToBq(c, sql1, t1).taskId == BqToBq(c, sql2, t2).taskId {
      assert BqToBq(c, sql1, t1).taskId == exp + t1 + ".bq_to_bq";
      assert BqToBq(c, sql2, t2).taskId == exp + t2 + ".bq_to_bq";
      Strings.CancelAround(exp, t1, t2, ".bq_to_bq");
    }
  }

  // ---------------------------------------------------------------------
  // get_maybe_create_dataset_operator

  /** 60 * 60 * 24 * 31 seconds. */
  const DefaultExpirationSeconds := 2678400

  /** `str(seconds * 1000)` */
  function ExpirationMs(seconds: int): string
  {
    Strings.Decimal(seconds * 1000)
  }

  /** The expiration string reads back as the number of milliseconds. */
  lemma ExpirationMsRoundTrip(seconds: int)
    ensures Strings.ParseInt(ExpirationMs(seconds)) == Some(seconds * 1000)
    ensures seconds == DefaultExpirationSeconds ==> Strings.ParseInt(ExpirationMs(seconds)) == Some(31 * 24 * 60 * 60 * 1000)
  {
    Strings.ParseDecimal(seconds * 1000);
  }

  datatype MaybeCreateDatasetOperator = MaybeCreateDatasetOperator(
    taskId: string, projectId: Option<string>, datasetId: string, reference: map<string, string>)

  /** The description is a fixed text: its `{experiment_name}` is never filled in. */
  const DatasetDescription := "Dataset for experiment {experiment_name}. Auto generated by fuga."

  function MaybeCreateDataset(c: DagConfig, tableExpirationSeconds: int, partitionExpirationSeconds: int): (op: MaybeCreateDatasetOperator)
    ensures op.reference.Keys == {"description", "defaultTableExpirationMs", "defaultPartitionExpirationMs"}
    ensures op.reference["description"] == DatasetDescription
    ensures Strings.ParseInt(op.reference["defaultTableExpirationMs"]) == Some(tableExpirationSeconds * 1000)
    ensures Strings.ParseInt(op.reference["defaultPartitionExpirationMs"]) == Some(partitionExpirationSeconds * 1000)
    ensures op.projectId == c.projectName
  {
    ExpirationMsRoundTrip(tableExpirationSeconds);
    ExpirationMsRoundTrip(partitionExpirationSeconds);
    MaybeCreateDatasetOperator(
      Render(c.experimentName) + ".create_dataset",
      c.projectName,
      DatasetName(c),
      map["description" := DatasetDescription,
          "defaultTableExpirationMs" := ExpirationMs(tableExpirationSeconds),
          "defaultPartitionExpirationMs" := ExpirationMs(partitionExpirationSeconds)])
  }

  /** The dataset the maybe-create step makes is the one bq_to_bq writes into. */
  lemma BqToBqWritesIntoCreatedDataset(c: DagConfig, sql: string, table: string, t: int, p: int)
    ensures BqToBq(c, sql, table).destination ==
      LegacyRef(TableRef(Render(MaybeCreateDataset(c, t, p).projectId), MaybeCreateDataset(c, t, p).datasetId, table + DateDescriptor))
  {
  }

  // ---------------------------------------------------------------------
  // BigQueryMaybeCreateEmptyDatasetOperator.execute

  datatype Dataset = Dataset(projectId: Option<string>, datasetId: string, reference: map<string, string>)

  /** `[d['datasetReference']['datasetId'] for d in get_datasets_list(project_id)]` */
  function DatasetIds(datasets: seq<Dataset>, projectId: Option<string>): (ids: seq<string>)
    ensures forall id :: id in ids <==> exists d :: d in datasets && d.projectId == projectId && d.datasetId == id
    decreases |datasets|
  {
    if datasets == [] then []
    else
      var front := DatasetIds(datasets[..|datasets| - 1], projectId);
      var last := datasets[|datasets| - 1];
      assert forall d :: d in datasets <==> d in datasets[..|datasets| - 1] || d == last;
      if last.projectId == projectId then front + [last.datasetId] else front
  }

  /** The datasets after one `execute`. */
  function EnsureDataset(datasets: seq<Dataset>, projectId: Option<string>, datasetId: string, reference: map<string, string>): seq<Dataset>
  {
    if datasetId in DatasetIds(datasets, projectId) then datasets
    else datasets + [Dataset(projectId, datasetId, reference)]
  }

  /** The BigQuery datasets the hook's cursor sees and creates. */
  class DatasetCatalog {
    var datasets: seq<Dataset>

    constructor (datasets: seq<Dataset>)
      ensures this.datasets == datasets
    {
      this.datasets := datasets;
    }

    /** `cursor.create_empty_dataset(...)` */
    method CreateEmptyDataset(projectId: Option<string>, datasetId: string, reference: map<string, string>)
      modifies this
      ensures datasets == old(datasets) + [Dataset(projectId, datasetId, reference)]
    {
      datasets := datasets + [Dataset(projectId, datasetId, reference)];
    }
  }

  /** `BigQueryMaybeCreateEmptyDatasetOperator.execute` */
  method Execute(catalog: DatasetCatalog, op: MaybeCreateDatasetOperator)
    modifies catalog
    ensures catalog.datasets == EnsureDataset(old(catalog.datasets), op.projectId, op.datasetId, op.reference)
  {
    var ids := DatasetIds(catalog.datasets, op.projectId);
    if op.datasetId !in ids {
      catalog.CreateEmptyDataset(op.projectId, op.datasetId, op.reference);
    }
  }

  /** Afterwards the dataset exists; nothing is removed and at most one dataset is added. */
  lemma EnsureDatasetPresent(datasets: seq<Dataset>, projectId: Option<string>, datasetId: string, reference: map<string, string>)
    ensures datasetId in DatasetIds(EnsureDataset(datasets, projectId, datasetId, reference), projectId)
    ensures datasets <= EnsureDataset(datasets, projectId, datasetId, reference)
    ensures |EnsureDataset(datasets, projectId, datasetId, reference)| <= |datasets| + 1
  {
    var after := EnsureDataset(datasets, projectId, datasetId, reference);
    if datasetId !in DatasetIds(datasets, projectId) {
      assert after[|after| - 1] in after;
    }
  }

  /** A second `execute` creates nothing. */
  lemma EnsureDatasetIdempotent(datasets: seq<Dataset>, projectId: Option<string>, datasetId: string, reference: map<string, string>)
    ensures var once := EnsureDataset(datasets, projectId, datasetId, reference);
      EnsureDataset(once, projectId, datasetId, reference) == once
  {
    EnsureDatasetPresent(datasets, projectId, datasetId, reference);
  }

  // ---------------------------------------------------------------------
  // get_export_table_operator

  datatype ExportOperator = ExportOperator(taskId: string, source: string, destinations: seq<string>, compression: string)

  function ExportTable(c: DagConfig, table: string): (op: ExportOperator)
    ensures |op.destinations| == 1
  {
    var dated := table + DateDescriptor;
    ExportOperator(
      Render(c.experimentName) + "." + table + ".export",
      Render(c.projectName) + "." + Render(c.experimentName) + "_database" + "." + dated,
      ["gs://" + Render(c.bucketName) + "/" + Render(c.experimentName) + "/exported_tables/" + table + "/" + DateDescriptor + "/out.csv.gzip"],
      "GZIP")
  }

  /** The export reads exactly the table bq_to_bq writes, in standard rather than legacy notation. */
  lemma ExportReadsBqToBqTable(c: DagConfig, sql: string, table: string)
    ensures var t := TableRef(Render(c.projectName), DatasetName(c), table + DateDescriptor);
      ExportTable(c, table).source == StandardRef(t) && BqToBq(c, sql, table).destination == LegacyRef(t)
  {
  }

  // ---------------------------------------------------------------------
  // get_dag

  datatype ArgValue = Text(text: string) | Number(number: int) | Flag(flag: bool)

  datatype Dag = Dag(dagId: string, defaultArgs: map<string, ArgValue>, catchup: bool)

  /** `get_dag` raises `NameError` on the misspelt `defaualt_args`. */
  datatype DagError = NameError(name: string)

  /**
   * `get_dag(start_date, **xargs)`, where `today` is the clock's reading and
   * `notificationEmail` the `notification_email_address` Variable.
   */
  function GetDag(c: DagConfig, startDate: Option<string>, today: string, xargs: map<string, ArgValue>,
                  notificationEmail: Option<string>): (r: Result<Dag, DagError>)
    ensures r.Failure? <==> notificationEmail.Some?
    ensures r.Failure? ==> r.error == NameError("defaualt_args")
    ensures r.Success? ==> r.value.dagId == Render(c.experimentName) + "_dag"
    ensures r.Success? ==>
      r.value.defaultArgs.Keys == {"start_date", "retries", "email_on_failure"} + xargs.Keys &&
      (forall k :: k in xargs ==> r.value.defaultArgs[k] == xargs[k]) &&
      ("start_date" !in xargs ==> r.value.defaultArgs["start_date"] == Text(if startDate.Some? then startDate.value else today)) &&
      ("retries" !in xargs ==> r.value.defaultArgs["retries"] == Number(1)) &&
      ("email_on_failure" !in xargs ==> r.value.defaultArgs["email_on_failure"] == Flag(true)) &&
      !r.value.catchup
  {
    if notificationEmail.Some? then Failure(NameError("defaualt_args"))
    else
      var defaults := map["start_date" := Text(if startDate.Some? then startDate.value else today),
                          "retries" := Number(1), "email_on_failure" := Flag(true)];
      Success(Dag(Render(c.experimentName) + "_dag", defaults + xargs, false))
  }

  // ---------------------------------------------------------------------
  // get_kubernetes_pod_operator

  /** `image_tag or 'LATEST'` */
  function ImageTag(tag: Option<string>): (r: string)
    ensures tag.Some? && tag.value != "" ==> r == tag.value
    ensures tag.None? || tag.value == "" ==> r == "LATEST"
  {
    if tag.Some? && tag.value != "" then tag.value else "LATEST"
  }

  /** The image: built from the operator name in the project's registry, or the given image verbatim; `None` when not exactly one is given. */
  function PodImage(c: DagConfig, operatorName: Option<string>, operatorImage: Option<string>): (r: Option<string>)
    ensures r.None? <==> operatorName.None? == operatorImage.None?
    ensures operatorName.None? && operatorImage.Some? ==> r == operatorImage
    ensures operatorName.Some? && operatorImage.None? ==>
      r == Some("gcr.io/" + Render(c.projectName) + "/" + Render(c.experimentName) + "_" + operatorName.value)
  {
    if operatorName.None? == operatorImage.None? then None
    else if operatorName.Some? then
      Some("gcr.io/" + Render(c.projectName) + "/" + Render(c.experimentName) + "_" + operatorName.value)
    else operatorImage
  }

  /** The task id: both parts with `-` turned into `_`. */
  function PodTaskId(experimentName: string, operatorName: string): (id: string)
    ensures '-' !in id
    ensures |id| == |experimentName| + 1 + |operatorName|
    ensures forall k :: 0 <= k < |experimentName| ==> id[k] == (if experimentName[k] == '-' then '_' else experimentName[k])
    ensures id[|experimentName|] == '_'
    ensures forall k :: 0 <= k < |operatorName| ==>
      id[|experimentName| + 1 + k] == (if operatorName[k] == '-' then '_' else operatorName[k])
  {
    var front := Strings.ReplaceChar(experimentName, '-', '_') + "_";
    var back := Strings.ReplaceChar(operatorName, '-', '_');
    assert forall k :: 0 <= k < |back| ==> (front + back)[|front| + k] == back[k];
    front + back
  }

  /** The exceptions the pod-operator factory ends in. */
  datatype PodError = NeitherOrBoth | NoneHasNoReplace | MissingFormatKey(key: string)

  /**
   * `get_kubernetes_pod_operator` never returns: it raises when not exactly
   * one of name and image is given, then on `.replace` of a `None`
   * experiment or operator name, and otherwise on the pod name's format,
   * which names `{image_tag}` without passing it.
   */
  function PodOperatorFailure(c: DagConfig, operatorName: Option<string>, operatorImage: Option<string>): (e: PodError)
    ensures e == NeitherOrBoth <==> operatorName.None? == operatorImage.None?
    ensures e == NoneHasNoReplace <==>
      operatorName.None? != operatorImage.None? && (c.experimentName.None? || operatorName.None?)
    ensures e.MissingFormatKey? ==>
      e.key == "image_tag" && operatorName.Some? && operatorImage.None? && c.experimentName.Some?
  {
    if operatorName.None? == operatorImage.None? then NeitherOrBoth
    else if c.experimentName.None? || operatorName.None? then NoneHasNoReplace
    else MissingFormatKey("image_tag")
  }

  /** Given only an image, the factory fails on the operator name it then formats. */
  lemma ImageOnlyFails(c: DagConfig, image: string)
    ensures PodImage(c, None, Some(image)) == Some(image)
    ensures PodOperatorFailure(c, None, Some(image)) == NoneHasNoReplace
  {
  }
}
