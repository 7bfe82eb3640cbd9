/**
 * The GCS objects `fuga.gcs` reads and writes on behalf of an experiment:
 * which project, bucket and object key each helper addresses.
 */
module Gcs {
  import opened Wrappers
  import Strings
  import Urls
  import Airflow
  import Config

  /** A blob address: the client's project, the bucket name and the object key. */
  datatype BlobRef = BlobRef(project: Option<string>, bucket: Option<string>, key: string)

  /** `'{experiment_name}/output/{{ ds_nodash }}/{name}.csv'` */
  function SaveDfKey(c: Airflow.DagConfig, name: string): string
  {
    Airflow.Render(c.experimentName) + ("/output/" + Airflow.DateDescriptor + "/" + name + ".csv")
  }

  /** `save_df(df, name)` uploads to this blob and returns its key. */
  function SaveDf(c: Airflow.DagConfig, name: string): (b: BlobRef)
    ensures b.project == c.projectName && b.bucket == c.bucketName
    ensures b.key == SaveDfKey(c, name)
  {
    BlobRef(c.projectName, c.bucketName, SaveDfKey(c, name))
  }

  /** `date or '{{ ds_nodash }}'` */
  function DateSegment(date: Option<string>): (r: string)
    ensures date.Some? && date.value != "" ==> r == date.value
    ensures date.None? || date.value == "" ==> r == Airflow.DateDescriptor
  {
    if date.Some? && date.value != "" then date.value else Airflow.DateDescriptor
  }

  /** `'{experiment_name}/exported_tables/{table_name}/{date}/out.csv.gzip'` */
  function ExportedTableKey(c: Airflow.DagConfig, table: string, date: Option<string>): string
  {
    Airflow.Render(c.experimentName) + ("/exported_tables/" + table + "/" + DateSegment(date) + "/out.csv.gzip")
  }

  /** `get_exported_table_df(table, date)` downloads this blob. */
  function ExportedTable(c: Airflow.DagConfig, table: string, date: Option<string>): (b: BlobRef)
    ensures b.project == c.projectName && b.bucket == c.bucketName
    ensures b.key == ExportedTableKey(c, table, date)
  {
    BlobRef(c.projectName, c.bucketName, ExportedTableKey(c, table, date))
  }

  /**
   * The DAG-side `get_exported_table_df(table_name)` of `fuga.airflow`: the
   * bucket comes from `gcs_bucket_name` rather than `bucket_name`, and the
   * date segment is always the template.
   */
  function DagExportedTable(s: Config.Settings, table: string): (b: BlobRef)
    ensures b.project == s.Get("gcp_project_name") && b.bucket == s.Get(Config.BucketKey)
    ensures b.key == ExportedTableKey(Airflow.DagConfigOf(s), table, None)
  {
    BlobRef(s.Get("gcp_project_name"), s.Get(Config.BucketKey), ExportedTableKey(Airflow.DagConfigOf(s), table, None))
  }

  /** The DAG-side reader names the blob the `fuga.gcs` reader names for an undated table exactly when the two bucket keys agree. */
  lemma DagReaderMatchesExportIff(s: Config.Settings, table: string)
    ensures DagExportedTable(s, table) == ExportedTable(Airflow.DagConfigOf(s), table, None) <==>
      s.Get(Config.BucketKey) == s.Get("bucket_name")
  {
    var c := Airflow.DagConfigOf(s);
    assert ExportedTable(c, table, None).bucket == s.Get("bucket_name");
    assert DagExportedTable(s, table).bucket == s.Get(Config.BucketKey);
  }

  /** Without a date, the object read is the one the export operator's destination names. */
  lemma ReadIsExportDestination(c: Airflow.DagConfig, table: string)
    ensures Airflow.ExportTable(c, table).destinations ==
      ["gs://" + Airflow.Render(c.bucketName) + "/" + ExportedTableKey(c, table, None)]
  {
    var exp := Airflow.Render(c.experimentName);
    var head := "gs://" + Airflow.Render(c.bucketName) + "/";
    var tail := "/exported_tables/" + table + "/" + Airflow.DateDescriptor + "/out.csv.gzip";
    assert DateSegment(None) == Airflow.DateDescriptor;
    assert ExportedTableKey(c, table, None) == exp + tail;
    assert Airflow.ExportTable(c, table).destinations[0] == head + exp + tail;
    assert head + exp + tail == head + (exp + tail);
  }

  /** The same, read through `urlparse`: the destination's location is the bucket and its path without the slash is the key. */
  lemma ExportDestinationSplitsIntoBucketAndKey(c: Airflow.DagConfig, table: string)
    requires Urls.Plain(Airflow.Render(c.bucketName))
    requires '?' !in Airflow.Render(c.experimentName) && '#' !in Airflow.Render(c.experimentName)
    requires '?' !in table && '#' !in table
    ensures var u := Urls.UrlParse(Airflow.ExportTable(c, table).destinations[0]);
      u.Success? && u.value.netloc == Airflow.Render(c.bucketName) &&
      Urls.DropFirst(u.value.path) == ExportedTableKey(c, table, None)
  {
    var key := ExportedTableKey(c, table, None);
    ReadIsExportDestination(c, table);
    var exp := Airflow.Render(c.experimentName);
    assert key == exp + ("/exported_tables/" + table + "/" + Airflow.DateDescriptor + "/out.csv.gzip");
    AbsentFromJoin(exp, "/exported_tables/" + table + "/" + Airflow.DateDescriptor + "/out.csv.gzip", '?');
    AbsentFromJoin(exp, "/exported_tables/" + table + "/" + Airflow.DateDescriptor + "/out.csv.gzip", '#');
    Urls.GsUrl(Airflow.Render(c.bucketName), key);
    assert ("/" + key)[1..] == key;
  }

  lemma AbsentFromJoin(a: string, b: string, ch: char)
    requires ch !in a && ch !in b
    ensures ch !in a + b
  {
  }

  /** Different names give different `save_df` keys. */
  lemma SaveDfKeysDistinct(c: Airflow.DagConfig, n1: string, n2: string)
    ensures SaveDfKey(c, n1) == SaveDfKey(c, n2) ==> n1 == n2
  {
    var head := Airflow.Render(c.experimentName) + "/output/" + Airflow.DateDescriptor + "/";
    if SaveDfKey(c, n1) == SaveDfKey(c, n2) {
      assert SaveDfKey(c, n1) == head + n1 + ".csv";
      assert SaveDfKey(c, n2) == head + n2 + ".csv";
      Strings.CancelAround(head, n1, n2, ".csv");
    }
  }

  /** Saved outputs and exported tables live under different folders of the experiment, so they never collide. */
  lemma OutputsAndExportsDisjoint(c: Airflow.DagConfig, name: string, table: string, date: Option<string>)
    ensures SaveDfKey(c, name) != ExportedTableKey(c, table, date)
  {
    var exp := Airflow.Render(c.experimentName);
    var s := SaveDfKey(c, name);
    var e := ExportedTableKey(c, table, date);
    var x := "/output/" + Airflow.DateDescriptor + "/" + name + ".csv";
    var y := "/exported_tables/" + table + "/" + DateSegment(date) + "/out.csv.gzip";
    assert x[1] == 'o' && y[1] == 'e';
    assert s[|exp| + 1] == x[1];
    assert e[|exp| + 1] == y[1];
  }
}
