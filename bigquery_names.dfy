/** Names shared by the scripts: the default project and the catalog locator
    of a BigQuery table. */
module BigQueryNames {

  /** The project a two-part `dataset.table` identifier belongs to. */
  const DefaultProject: string := "moz-fx-data-shared-prod"

  /** The default project is a single name segment. */
  lemma DefaultProjectIsOneSegment()
    ensures '.' !in DefaultProject && ',' !in DefaultProject
    ensures |DefaultProject| > 0 && DefaultProject[0] != DatasetUrnPrefix[0]
  {
  }

  /** The scheme every locator of the lineage catalog starts with. */
  const UrnScheme: string := "urn:li:"

  /** The entity kind of a dataset locator. */
  const DatasetKind: string := "dataset:"

  /** Every dataset locator of the lineage catalog starts with this. */
  const DatasetUrnPrefix: string := UrnScheme + DatasetKind

  /** The locator prefix holds no dot. */
  lemma DatasetUrnPrefixHasNoDot()
    ensures '.' !in DatasetUrnPrefix
  {
  }

  /** The platform piece of a dataset locator, up to the platform's name. */
  const PlatformPrefix: string := "(urn:li:dataPlatform:"

  /** The name of the BigQuery platform. */
  const BigQuery: string := "bigquery"

  /** The platform piece of a BigQuery dataset locator, up to its first comma. */
  const BigQueryPlatform: string := PlatformPrefix + BigQuery

  /** The environment piece of a dataset locator, after its last comma. */
  const ProdEnvironment: string := "PROD)"

  /** `project.dataset.table`. */
  function Fqn(project: string, dataset: string, table: string): string
  {
    project + "." + dataset + "." + table
  }

  /** The lineage catalog's locator of a BigQuery table in the PROD environment:
      `urn:li:dataset:(urn:li:dataPlatform:bigquery,<fqn>,PROD)`. */
  function DatasetUrn(fqn: string): string
  {
    DatasetUrnPrefix + BigQueryPlatform + "," + fqn + "," + ProdEnvironment
  }

  /** The fixed pieces of a locator hold no comma. */
  lemma UrnPiecesAreCommaFree()
    ensures ',' !in DatasetUrnPrefix + BigQueryPlatform && ',' !in ProdEnvironment
  {
  }

  /** The parameters of a lineage query: the dataset locator, the direction
      (`upstream` true for upstream) and the number of hops. The column and the
      filters are always absent and are not represented. */
  datatype LineageParameters = LineageParameters(urn: string, upstream: bool, maxHops: int)

  /** A lineage query: the tool to call and its parameters. */
  datatype LineageQuery = LineageQuery(tool: string, parameters: LineageParameters)

  /** The lineage tool every query names. */
  const LineageTool: string := "mcp__datahub-cloud__get_lineage"
}
