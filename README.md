# BigQuery ETL skill scripts: a verified model

This project models the decision logic of five helper scripts from the
BigQuery ETL skills repository. The scripts help someone writing queries and
metadata for Mozilla's shared BigQuery project.

- **Base-schema preview** (`metadata-manager/scripts/preview_base_schema.py`)
  resolves each field of a query's `schema.yaml` against a dataset base schema
  and then the global base schema. It reports four lists:
  - matched fields;
  - descriptions that would be overwritten;
  - fields missing a description;
  - alias fields that should use the canonical name.
- **Aggregated-alternatives check**
  (`model-requirements/scripts/check_aggregated_alternatives.py`) does four things:
  - classifies a table as a raw `_live` / `_stable` table or not;
  - proposes aggregated alternatives from a fixed catalogue, or from naming templates for `_stable` datasets;
  - builds the DataHub lineage query for raw tables;
  - derives the exit status.
- **DataHub lineage helper** (`metadata-manager/scripts/datahub_lineage.py`) does three things:
  - parses dotted names and dataset URNs;
  - builds the lineage tool call;
  - filters a lineage response down to the BigQuery datasets it names.
- **Team detection** (`skills/metadata-manager/scripts/detect_teams.py`):
  - extracts GitHub teams from `metadata.yaml` owners;
  - builds the team→datasets and dataset→teams maps;
  - recommends or searches teams by case-insensitive substring.
- **Collection aggregation** (`skills/bigconfig-generator/scripts/extract_collections.py`):
  - extracts the collections of a `bigconfig.yml`;
  - summarises them per collection name: count, notification channels, datasets and tables.

## Modules

| file | module | contents |
|---|---|---|
| `wrappers.dfy` | `Wrappers` | `Option` and `Result` |
| `text.dfy` | `Text` | Python string operations used by the scripts: `split` on one character, `join`, `startswith`/`endswith`/`in`, `replace(x, "")`, `strip`, ASCII `lower` |
| `sorting.dfy` | `Sorting` | code-point order on strings and `sorted(set)` as `SortSet` |
| `bigquery_names.dfy` | `BigQueryNames` | the default project, fully qualified names, the dataset URN and the lineage tool call record |
| `preview_base_schema.dfy` | `PreviewBaseSchema` | field resolution and the reconciliation preview |
| `preview_base_schema_scenarios.dfy` | `PreviewBaseSchemaScenarios` | worked previews of single fields |
| `aggregated_alternatives.dfy` | `AggregatedAlternatives` | the raw-table classifier and its alternatives catalogue |
| `aggregated_alternatives_scenarios.dfy` | `AggregatedAlternativesScenarios` | worked classifications and catalogue lookups |
| `datahub_lineage.dfy` | `DatahubLineage` | URN-aware parsing, the lineage query and the response filter |
| `detect_teams.dfy` | `DetectTeams` | owner extraction, the team/dataset maps, recommendation and search |
| `extract_collections.dfy` | `ExtractCollections` | collection extraction and per-name aggregation |

The scripts' loops that build lists or dictionaries step by step are Dafny
methods with loop invariants:
- the base-schema search and the preview;
- the lineage response filter;
- team extraction and collection;
- collection extraction and aggregation.

Each such method is proved equal to a specification function. The
properties the scripts promise are then proved about those functions as
lemmas. The pure string logic is written as functions.

Each script has its own copy of `parse_table_identifier`, and the copies
behave differently, so each is modelled separately:
- only the alternatives check strips backticks;
- only the lineage helper accepts URNs.

## Model

| member | source | states |
|---|---|---|
| PreviewBaseSchema.ParseTableIdentifier | metadata-manager/scripts/preview_base_schema.py:36-52 | Parsing succeeds exactly for one or two dots. Two parts use the default project `moz-fx-data-shared-prod`. Three parts split positionally. The parts are dot-free and rejoin to the input. Otherwise the error message is `Invalid table identifier format: <id>`. |
| PreviewBaseSchema.ParseTableIdentifierRoundTrip | metadata-manager/scripts/preview_base_schema.py:38-44 | Dot-free parts joined as `project.dataset.table` or `dataset.table` parse back to the same parts. |
| PreviewBaseSchema.ParseAcceptsEmptySegments | metadata-manager/scripts/preview_base_schema.py:38-46 | Empty segments are not rejected: `.` and `..` parse. |
| PreviewBaseSchema.FindField | metadata-manager/scripts/preview_base_schema.py:78-91 | No result exactly when no field's name or aliases contain the query name. Otherwise the result is the first hit in declared order, with kind "name" when the name matched and "alias" otherwise. |
| PreviewBaseSchema.FindFieldReturnsFirstHit | metadata-manager/scripts/preview_base_schema.py:85-89 | Whenever field `i` is the first field that hits, the search returns field `i` with its kind. |
| PreviewBaseSchema.EarlierAliasBeatsLaterName | metadata-manager/scripts/preview_base_schema.py:85-89 | The search is one pass checking name before alias per field, so an earlier field's alias beats a later field's exact name. |
| PreviewBaseSchema.FindFieldInBaseSchema | metadata-manager/scripts/preview_base_schema.py:78-91 | The loop returns what the first-hit specification returns. |
| PreviewBaseSchema.Resolve | metadata-manager/scripts/preview_base_schema.py:138-148 | A resolution always names a field that hits the query name. |
| PreviewBaseSchema.ResolvePrecedence | metadata-manager/scripts/preview_base_schema.py:138-148 | A dataset-schema hit is used, with source `<dataset>.yaml`. The global schema is consulted only when the dataset schema gives nothing, with source `global.yaml`. There is no resolution exactly when neither loaded schema has a hit. |
| PreviewBaseSchema.DatasetAliasBeatsGlobalName | metadata-manager/scripts/preview_base_schema.py:139-148 | A dataset alias match beats a global exact-name match. |
| PreviewBaseSchema.LookUp | metadata-manager/scripts/preview_base_schema.py:134-148 | The lookup statements compute the specified resolution. |
| PreviewBaseSchema.Outcomes | metadata-manager/scripts/preview_base_schema.py:131-148 | One outcome per query field, in order, each resolved independently. |
| PreviewBaseSchema.PreviewBaseSchemaMatches | metadata-manager/scripts/preview_base_schema.py:94-179 | The preview loop produces the report of the specification. A schema is consulted only when enabled and present. |
| PreviewBaseSchema.ReconcileStep | metadata-manager/scripts/preview_base_schema.py:150-177 | Each field appends to each of the four lists exactly the entry its outcome calls for. |
| PreviewBaseSchema.MatchedFieldsExactly | metadata-manager/scripts/preview_base_schema.py:150-160 | `matched_fields` holds exactly the entries of matched fields, each with the base field's canonical name and stripped description. |
| PreviewBaseSchema.OverwrittenFieldsExactly | metadata-manager/scripts/preview_base_schema.py:162-169 | A field is listed as overwritten iff it matched, its stripped description is non-empty, and that description differs from the stripped base description. |
| PreviewBaseSchema.MissingDescriptionsExactly | metadata-manager/scripts/preview_base_schema.py:174-177 | A field is listed as missing a description iff it is unmatched and its stripped description is empty. |
| PreviewBaseSchema.AliasRecommendationsExactly | metadata-manager/scripts/preview_base_schema.py:171-173 | `(field, canonical)` is recommended exactly for alias matches. |
| PreviewBaseSchema.MatchedFieldsOnePerField | metadata-manager/scripts/preview_base_schema.py:150-160 | There are as many matched entries as matched query fields. |
| PreviewBaseSchema.MatchedFieldsInQueryOrder | metadata-manager/scripts/preview_base_schema.py:131-160 | Matched entries keep the query fields' order. |
| PreviewBaseSchema.MissingNeverMatched | metadata-manager/scripts/preview_base_schema.py:150-177 | No field is both matched and missing a description. |
| PreviewBaseSchema.OverwritesAndAliasesAreMatched | metadata-manager/scripts/preview_base_schema.py:150-173 | Every overwrite and every alias recommendation has a matching `matched_fields` entry. |
| PreviewBaseSchema.OverwriteIgnoresSurroundingWhitespace | metadata-manager/scripts/preview_base_schema.py:133-169 | A description differing only in surrounding whitespace is not flagged. A non-empty own description against an empty base description is flagged. |
| PreviewBaseSchema.ReconcileOneTrimmed | metadata-manager/scripts/preview_base_schema.py:150-173 | The complete report for one resolved field with trimmed descriptions. |
| PreviewBaseSchemaScenarios.ClientIdResolvesGlobally | metadata-manager/scripts/preview_base_schema.py:139-148 | `client_id` misses an empty dataset schema and resolves by name in `global.yaml`. |
| PreviewBaseSchemaScenarios.OsVerResolvesByAlias | metadata-manager/scripts/preview_base_schema.py:78-148 | `os_ver` resolves to the global `os_version` through its alias. |
| PreviewBaseSchemaScenarios.GlobalMatchWithoutOwnDescription | metadata-manager/scripts/preview_base_schema.py:150-177 | A global name match without an own description is matched only: it is neither overwritten nor missing. |
| PreviewBaseSchemaScenarios.GlobalAliasMatchWithOwnDescription | metadata-manager/scripts/preview_base_schema.py:150-173 | A global alias match with a different description is matched, overwritten and recommended for renaming. |
| AggregatedAlternatives.ParseTableIdentifier | model-requirements/scripts/check_aggregated_alternatives.py:93-122 | Surrounding backticks are stripped first. Parsing succeeds exactly for one or two dots. Two parts use the default project and `short_name` is `dataset.table`. `full_name` is the three-part name. Otherwise the error is `Invalid table identifier: <id>`. |
| AggregatedAlternatives.ParseIgnoresBackticks | model-requirements/scripts/check_aggregated_alternatives.py:103-105 | Surrounding backticks do not change the result. |
| AggregatedAlternatives.ParseTableIdentifierRoundTrip | model-requirements/scripts/check_aggregated_alternatives.py:104-122 | A three-part name, bare or backtick-quoted, and a two-part name parse back to their parts. |
| AggregatedAlternatives.IsRawTable | model-requirements/scripts/check_aggregated_alternatives.py:125-142 | The dataset is checked before the table and `_live` before `_stable`. The table is raw exactly when a dataset or table test matches. |
| AggregatedAlternatives.LiveIsNotStable | model-requirements/scripts/check_aggregated_alternatives.py:131-140 | A `_live` suffix excludes a `_stable` one, so the two suffix tests never overlap. |
| AggregatedAlternatives.DottedTestsAreDead | model-requirements/scripts/check_aggregated_alternatives.py:131-142 | For a parsed (dot-free) dataset the `"_live." in dataset` and `"_stable." in dataset` tests never fire. Classification is decided by the suffixes alone. |
| AggregatedAlternatives.DerivedDatasetOfStable | model-requirements/scripts/check_aggregated_alternatives.py:161-162 | `<product>_stable` maps to `<product>_derived`. |
| AggregatedAlternatives.RemoveStableSuffix | model-requirements/scripts/check_aggregated_alternatives.py:161-162 | Removing every `_stable` from `<product>_stable` leaves `<product>`. |
| AggregatedAlternatives.DerivedAlternatives | model-requirements/scripts/check_aggregated_alternatives.py:164-172 | `baseline_v1` and `metrics_v1` give one alternative, `events_v1` gives two, and any other table none. All are in the derived dataset. The table names and descriptions are stated by the three template lemmas below. |
| AggregatedAlternatives.TemplateAlternatives | model-requirements/scripts/check_aggregated_alternatives.py:155-174 | Templates apply only to `_stable` datasets; otherwise the list is empty. |
| AggregatedAlternatives.GetKnownAlternatives | model-requirements/scripts/check_aggregated_alternatives.py:145-174 | A catalogued `short_name` returns its catalogue list, which takes precedence. Any other name falls back to the templates. |
| AggregatedAlternatives.StableTemplate | model-requirements/scripts/check_aggregated_alternatives.py:160-172 | For `<product>_stable` the templates name tables in `<product>_derived`. |
| AggregatedAlternatives.UncataloguedStableUsesTemplate | model-requirements/scripts/check_aggregated_alternatives.py:152-172 | An uncatalogued `<product>_stable.<table>` gets the `<product>_derived` templates. |
| AggregatedAlternatives.BaselineTemplate | model-requirements/scripts/check_aggregated_alternatives.py:164-165 | `baseline_v1` gives the single alternative `<derived>.baseline_clients_daily_v1`, "One row per client per day". |
| AggregatedAlternatives.MetricsTemplate | model-requirements/scripts/check_aggregated_alternatives.py:166-167 | `metrics_v1` gives the single alternative `<derived>.metrics_clients_daily_v1`, "One row per client per day, aggregated metrics". |
| AggregatedAlternatives.EventsTemplate | model-requirements/scripts/check_aggregated_alternatives.py:168-172 | `events_v1` gives `<derived>.events_daily_v1` and then `<derived>.events_stream_v1`, each with its description. |
| AggregatedAlternatives.StableBaselineTemplate | model-requirements/scripts/check_aggregated_alternatives.py:160-165 | `<product>_stable.baseline_v1` is templated to `<product>_derived.baseline_clients_daily_v1`. |
| AggregatedAlternatives.StableMetricsTemplate | model-requirements/scripts/check_aggregated_alternatives.py:160-167 | `<product>_stable.metrics_v1` is templated to `<product>_derived.metrics_clients_daily_v1`. |
| AggregatedAlternatives.StableEventsTemplate | model-requirements/scripts/check_aggregated_alternatives.py:160-172 | `<product>_stable.events_v1` is templated to `<product>_derived.events_daily_v1` and then `<product>_derived.events_stream_v1`. |
| AggregatedAlternatives.UncataloguedLiveHasNoAlternatives | model-requirements/scripts/check_aggregated_alternatives.py:152-174 | An uncatalogued `_live` table has no alternatives. |
| AggregatedAlternativesScenarios.TelemetryStableMainUsesCatalogue | model-requirements/scripts/check_aggregated_alternatives.py:35-90 | `telemetry_stable.main_v4` returns its two catalogue entries, starting with `telemetry_derived.clients_daily_v1`. |
| AggregatedAlternativesScenarios.StableDatasetIsRaw | model-requirements/scripts/check_aggregated_alternatives.py:131-134 | Every dot-free `<product>_stable` dataset is classified raw, of the stable kind, whatever the table. |
| AggregatedAlternativesScenarios.TelemetryStableMainIsRaw | model-requirements/scripts/check_aggregated_alternatives.py:131-134 | `telemetry_stable.main_v4` is raw, of the stable kind. |
| AggregatedAlternativesScenarios.NotRawUnlessEndingInE | model-requirements/scripts/check_aggregated_alternatives.py:125-142 | A dot-free dataset and a table whose names do not end in `e` end in neither `_live` nor `_stable`, so they are not raw. |
| AggregatedAlternativesScenarios.ClientsDailyIsNotRaw | model-requirements/scripts/check_aggregated_alternatives.py:125-142 | `telemetry_derived.clients_daily_v1` is not raw. |
| AggregatedAlternativesScenarios.ClientsDailyHasNoAlternatives | model-requirements/scripts/check_aggregated_alternatives.py:145-174 | `telemetry_derived.clients_daily_v1` is not catalogued and its dataset is not `_stable`, so it has no alternatives. |
| AggregatedAlternativesScenarios.UncataloguedBaselineUsesTemplate | model-requirements/scripts/check_aggregated_alternatives.py:152-165 | `xyz_stable.baseline_v1` is not catalogued, so it gets `xyz_derived.baseline_clients_daily_v1`, "One row per client per day". |
| AggregatedAlternatives.GenerateLineageQueryParams | model-requirements/scripts/check_aggregated_alternatives.py:177-193 | The DataHub tool call for the dataset URN of `full_name`, looking downstream one hop. |
| AggregatedAlternatives.CheckTable | model-requirements/scripts/check_aggregated_alternatives.py:196-225 | A parse error becomes an `{error, table}` result. Otherwise the result carries the classification. Alternatives and a lineage query are present exactly for raw tables. |
| AggregatedAlternatives.AnyRaw | model-requirements/scripts/check_aggregated_alternatives.py:321 | True iff some checked result is raw. |
| AggregatedAlternatives.ExitStatus | model-requirements/scripts/check_aggregated_alternatives.py:320-322 | The exit status is 1 iff some table without a parse error is raw, and 0 otherwise. |
| DatahubLineage.ParseDotted | metadata-manager/scripts/datahub_lineage.py:49-72 | Dotted parsing, as in the preview script. A located record carries `fqn` and the dataset URN of it. |
| DatahubLineage.ParseTableIdentifier | metadata-manager/scripts/datahub_lineage.py:33-72 | A URN without a comma is returned unlocated. A URN with a comma is re-parsed from its second comma piece, which unwraps at most once. Anything else is dotted. |
| DatahubLineage.ParseDottedRoundTrip | metadata-manager/scripts/datahub_lineage.py:50-72 | Dotted names parse back to their parts. |
| DatahubLineage.DatasetUrnPieces | metadata-manager/scripts/datahub_lineage.py:41-64 | The URN built for a comma-free name splits at commas into the platform, the name and `PROD)`. |
| DatahubLineage.ParseUrnOfName | metadata-manager/scripts/datahub_lineage.py:41-64 | Parsing the URN of a comma-free name is parsing the name. |
| DatahubLineage.ParseUrnRoundTrip | metadata-manager/scripts/datahub_lineage.py:41-72 | The URN built at line 64 parses back to the same record, provided the name is comma-free and the project is not itself URN-shaped. |
| DatahubLineage.ParseShortNameRoundTrip | metadata-manager/scripts/datahub_lineage.py:41-72 | The same round trip for two-part names in the default project. |
| DatahubLineage.LocatorShapedProjectStaysUnlocated | metadata-manager/scripts/datahub_lineage.py:41-48 | When the project begins with `urn:li:dataset:`, the round trip fails: the unwrapped name is returned unlocated. |
| DatahubLineage.LocationOf | metadata-manager/scripts/datahub_lineage.py:114-118 | A location exists iff the name has at least two dots. Project and dataset are dot-free, and the table is the rest, so the three rejoin to the name. |
| DatahubLineage.ReadEntity | metadata-manager/scripts/datahub_lineage.py:99-118 | One entity is kept exactly when its URN mentions `bigquery` and `dataset:` and has a comma. It then yields its specified entry. |
| DatahubLineage.FormatLineageResult | metadata-manager/scripts/datahub_lineage.py:75-122 | The direction is kept. A missing response gives no tables; otherwise the kept entries in response order. |
| DatahubLineage.KeptExactly | metadata-manager/scripts/datahub_lineage.py:98-120 | An entry is reported iff some entity of the response yields it. |
| DatahubLineage.KeptAppend | metadata-manager/scripts/datahub_lineage.py:98-120 | Filtering keeps response order: it distributes over concatenation. |
| DatahubLineage.KeptEntriesAreConsistent | metadata-manager/scripts/datahub_lineage.py:104-118 | Every reported `fqn` is the second comma piece of its URN, and any location rejoins to it. |
| DatahubLineage.LocatorEntryIsLocated | metadata-manager/scripts/datahub_lineage.py:64-118 | An entity carrying a URN built by the parser is kept, with its name and location recovered. |
| DatahubLineage.GetLineageViaMcp | metadata-manager/scripts/datahub_lineage.py:150-161 | The tool call carries the URN and hop count, and `upstream` is true iff the direction is `upstream`. |
| DatahubLineage.LineageQueryFor | metadata-manager/scripts/datahub_lineage.py:197-205 | The helper's query fails iff parsing fails. Otherwise it is the tool call for the parsed URN. |
| DatahubLineage.SameQueryAsRawTableCheck | metadata-manager/scripts/datahub_lineage.py:197-205 | For a plain three-part name, the lineage helper asked for one hop downstream builds the same query as the raw-table check. |
| DetectTeams.ExtractTeamsFromMetadata | skills/metadata-manager/scripts/detect_teams.py:23-42 | The loop returns the owners that are strings containing `/` and not `@`, in order. Missing metadata, a missing `owners` key or a non-list gives none. |
| DetectTeams.TeamsExactly | skills/metadata-manager/scripts/detect_teams.py:38-40 | A team is extracted iff it is a string owner with `/` and without `@`. |
| DetectTeams.TeamsAppend | skills/metadata-manager/scripts/detect_teams.py:38-40 | Extraction keeps the owners' order. |
| DetectTeams.NoOwnersNoTeams | skills/metadata-manager/scripts/detect_teams.py:29-34 | No metadata, no `owners` key or a non-list `owners` gives no teams. |
| DetectTeams.DatasetFromPath | skills/metadata-manager/scripts/detect_teams.py:48-56 | A dataset exists iff the relative path has at least three parts, and it is the second part. |
| DetectTeams.PairsExactly | skills/metadata-manager/scripts/detect_teams.py:68-75 | `(team, dataset)` is collected iff some file has that team among its owners and that non-empty dataset. |
| DetectTeams.CollectAllTeams | skills/metadata-manager/scripts/detect_teams.py:61-77 | Both maps hold exactly the collected pairs, one keyed by team and one by dataset, with non-empty value sets. The maps are inverse to each other. |
| DetectTeams.RecordTeams | skills/metadata-manager/scripts/detect_teams.py:72-75 | One file's teams add exactly that file's pairs to both maps. |
| DetectTeams.CollectedMapsAreInverse | skills/metadata-manager/scripts/detect_teams.py:65-75 | `d` is in `teams_to_datasets[t]` iff `t` is in `datasets_to_teams[d]`. |
| DetectTeams.CollectedTeamsHaveDatasets | skills/metadata-manager/scripts/detect_teams.py:72-75 | Every collected team comes from a file with a dataset that lists it. |
| DetectTeams.RecommendTeamsForDataset | skills/metadata-manager/scripts/detect_teams.py:98-128 | Datasets are matched by case-insensitive substring. When any matches, the teams of the matching datasets are given; otherwise the teams whose names match. Either list is sorted and duplicate-free. |
| DetectTeams.SearchTeams | skills/metadata-manager/scripts/detect_teams.py:131-146 | Exactly the teams whose names contain the term, ignoring case, sorted. |
| DetectTeams.RecommendFallsBackToSearch | skills/metadata-manager/scripts/detect_teams.py:117-124 | Without a dataset match, the recommendation is the team search. |
| ExtractCollections.ExtractCollectionsFromBigconfig | skills/bigconfig-generator/scripts/extract_collections.py:21-53 | An empty config gives no records. Otherwise the records of `tag_deployments`, then those of `table_deployments`, each in order, skipping suites without a collection. |
| ExtractCollections.RecordsOfExactly | skills/bigconfig-generator/scripts/extract_collections.py:33-50 | A record is extracted iff some suite has that collection, and it carries the file's path. |
| ExtractCollections.RecordsOfAppend | skills/bigconfig-generator/scripts/extract_collections.py:33-50 | Extraction keeps the suites' order. |
| ExtractCollections.DatasetOfPath | skills/bigconfig-generator/scripts/extract_collections.py:84-87 | A dataset exists iff the path has a `/`, and it is the second `/` segment. |
| ExtractCollections.AddChannelLabels | skills/bigconfig-generator/scripts/extract_collections.py:92-97 | The channel loop adds exactly the labels of the channels. |
| ExtractCollections.ReadRecord | skills/bigconfig-generator/scripts/extract_collections.py:80-97 | One named record counts once, adds its dataset, appends its path and adds its channel labels. |
| ExtractCollections.ReadCollection | skills/bigconfig-generator/scripts/extract_collections.py:76-97 | A record with a missing or empty name is skipped. Any other updates its name's entry and keeps every entry equal to the tally of that name's records so far. |
| ExtractCollections.AggregateCollections | skills/bigconfig-generator/scripts/extract_collections.py:59-104 | One summary per non-empty name. Each equals the tally of that name's records, in reading order, with channels and datasets sorted. |
| ExtractCollections.Finalized | skills/bigconfig-generator/scripts/extract_collections.py:99-102 | Every entry's channels and datasets are replaced by their sorted lists. |
| ExtractCollections.TallyTables | skills/bigconfig-generator/scripts/extract_collections.py:81-89 | `count` is the number of records, and `tables` lists their paths in reading order. |
| ExtractCollections.TallyDatasets | skills/bigconfig-generator/scripts/extract_collections.py:84-87 | A dataset is recorded iff some record's path has it as second segment. |
| ExtractCollections.TallyChannels | skills/bigconfig-generator/scripts/extract_collections.py:92-97 | A label is recorded iff some channel of some record gives it. |
| ExtractCollections.LabelsOfExactly | skills/bigconfig-generator/scripts/extract_collections.py:92-97 | A label comes from a list of channels iff one of them gives it. |
| ExtractCollections.NamedExactly | skills/bigconfig-generator/scripts/extract_collections.py:77-81 | A name's records are exactly the records carrying that non-empty name. |
| ExtractCollections.NamedAppend | skills/bigconfig-generator/scripts/extract_collections.py:74-81 | Later files' records come after earlier ones'. |
| ExtractCollections.UnnamedRecordsAreIgnored | skills/bigconfig-generator/scripts/extract_collections.py:77-78 | A record with a missing or empty name changes no summary. |
| ExtractCollections.SummariesAreSortedAndCounted | skills/bigconfig-generator/scripts/extract_collections.py:81-102 | Channels and datasets are sorted and duplicate-free. `count` equals the number of tables and of records with the name. |
| ExtractCollections.SummaryDatasets | skills/bigconfig-generator/scripts/extract_collections.py:83-87 | A summary's datasets are exactly the second path segments of the records with its name. |
| ExtractCollections.SummaryChannels | skills/bigconfig-generator/scripts/extract_collections.py:91-97 | A summary's channels are exactly `slack:`/`email:` labels of mapping channels of the records with its name. |
| ExtractCollections.BothKeysApply | skills/bigconfig-generator/scripts/extract_collections.py:93-97 | A channel with both `slack` and `email` contributes both labels. |

## Left out

- Reading YAML and files, directory scans (`rglob`), argument parsing, printing, Markdown and JSON rendering, and `sys.exit` are left out. Loaded documents are inputs, and a missing or unreadable file is an absent value. The exit-status rule of the alternatives check is kept.
- The catch-all `except` handlers that warn and return an empty result on I/O or malformed YAML are not modelled. Inputs are well-formed values of the datatypes.
- A null deployment list makes the source drop every collection of that file, and a null `notification_channels` crashes the script; neither is modelled.
- Collection names and channel values are strings. A non-string value, such as a null formatted as `slack:None`, or a non-string name used as a dictionary key, is not modelled.
- `Path.relative_to` is not modelled. A collection record's path is a given `project/dataset/table` string, and a metadata file's path is its sequence of parts relative to `sql/`.
- The lineage tool call always has `column` and `filters` set to `None`, so those two fields are not represented.
- No DataHub call is made. The lineage response is an input, and an entity's missing `urn` is the empty string, as in the source.
- Lower-casing is ASCII only; Unicode case mapping is left out. Whitespace is Python's full `str.isspace` set.
- In text output mode, the lineage helper prints `table_info['fqn']`. An unlocated URN record has no `fqn`, so the helper reports an error and exits with status 1. Output is not modelled, so this path is not either.
- Listing teams and showing the first five datasets of each search hit are rendering, and are left out.
- skills/query-writer/assets/python_query_template.py is not part of this model.
- DatahubLineage.ParseUrnRoundTrip: holds only for comma-free names whose project does not begin with `urn:li:dataset:`. `LocatorShapedProjectStaysUnlocated` shows what happens otherwise.
- DatahubLineage.ParseShortNameRoundTrip: additionally needs a dataset that does not begin with `urn:li:dataset:`. Such a two-part name is re-read as a URN without a comma and returned unlocated.
