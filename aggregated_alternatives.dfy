/** Raw-table classifier: flags `_live`/`_stable` tables, proposes aggregated
    `_derived` alternatives from a fixed catalogue or a naming template, and
    builds the lineage query that finds further alternatives. */
module AggregatedAlternatives {
  import opened Wrappers
  import opened Text
  import opened BigQueryNames

  /** A parsed table identifier. */
  datatype TableInfo = TableInfo(project: string, dataset: string, table: string)
  {
    /** `full_name`: `project.dataset.table`. */
    function FullName(): string
    {
      Fqn(project, dataset, table)
    }

    /** `short_name`: `dataset.table`. */
    function ShortName(): string
    {
      dataset + "." + table
    }
  }

  /** A suggested replacement table and why it is preferable. */
  datatype Alternative = Alternative(table: string, rationale: string)

  /** The kind of raw ingestion table. */
  datatype TableType = Live | Stable

  /** The catalogue of known aggregated alternatives, keyed by `dataset.table`. */
  const KnownAlternatives: map<string, seq<Alternative>> := map[
    "telemetry_live.main_v5" := [
      Alternative("telemetry_derived.clients_daily_v1", "Most common - one row per client per day, pre-aggregated metrics"),
      Alternative("telemetry_derived.clients_last_seen_v1", "For retention analysis with 28-day history"),
      Alternative("telemetry_derived.main_summary_v4", "Deprecated - ping-level, use clients_daily if possible")],
    "telemetry_stable.main_v4" := [
      Alternative("telemetry_derived.clients_daily_v1", "Most common - one row per client per day, pre-aggregated metrics"),
      Alternative("telemetry_derived.clients_last_seen_v1", "For retention analysis with 28-day history")],
    "telemetry_live.events_v1" := [
      Alternative("telemetry_derived.events_daily_v1", "One row per client per event type per day"),
      Alternative("telemetry_derived.event_events_v1", "Individual event records with parsed extras")],
    "telemetry_stable.events_v1" := [
      Alternative("telemetry_derived.events_daily_v1", "One row per client per event type per day"),
      Alternative("telemetry_derived.event_events_v1", "Individual event records with parsed extras")],
    "firefox_desktop_live.baseline_v1" := [
      Alternative("firefox_desktop_derived.baseline_clients_daily_v1", "One row per client per day, aggregated baseline metrics")],
    "firefox_desktop_stable.baseline_v1" := [
      Alternative("firefox_desktop_derived.baseline_clients_daily_v1", "One row per client per day, aggregated baseline metrics")],
    "org_mozilla_fenix_stable.baseline_v1" := [
      Alternative("org_mozilla_fenix_derived.baseline_clients_daily_v1", "One row per client per day")],
    "org_mozilla_fenix_stable.metrics_v1" := [
      Alternative("org_mozilla_fenix_derived.metrics_clients_daily_v1", "One row per client per day, aggregated metrics")],
    "org_mozilla_fenix_stable.events_v1" := [
      Alternative("org_mozilla_fenix_derived.events_daily_v1", "One row per client per event type per day (if exists)"),
      Alternative("org_mozilla_fenix_derived.events_stream_v1", "Individual event records")],
    "org_mozilla_firefox_stable.baseline_v1" := [
      Alternative("org_mozilla_firefox_derived.baseline_clients_daily_v1", "One row per client per day")],
    "org_mozilla_firefox_stable.metrics_v1" := [
      Alternative("org_mozilla_firefox_derived.metrics_clients_daily_v1", "One row per client per day, aggregated metrics")],
    "org_mozilla_focus_stable.baseline_v1" := [
      Alternative("org_mozilla_focus_derived.baseline_clients_daily_v1", "One row per client per day")]
  ]

  /** The characters stripped from both ends of an identifier before parsing. */
  const Backticks: set<char> := {'`'}

  /** Parses `[project.]dataset.table` after stripping surrounding backticks. */
  function ParseTableIdentifier(identifier: string): (r: Result<TableInfo>)
    ensures var id := Strip(identifier, Backticks);
      r.Ok? <==> Count(id, '.') == 1 || Count(id, '.') == 2
    ensures r.Err? ==> r.message == "Invalid table identifier: " + Strip(identifier, Backticks)
    ensures r.Ok? ==> '.' !in r.value.project && '.' !in r.value.dataset && '.' !in r.value.table
    ensures var id := Strip(identifier, Backticks);
      r.Ok? && Count(id, '.') == 1 ==> r.value.project == DefaultProject && r.value.ShortName() == id
    ensures var id := Strip(identifier, Backticks);
      r.Ok? && Count(id, '.') == 2 ==> r.value.FullName() == id
  {
    var id := Strip(identifier, Backticks);
    var parts := Split(id, '.');
    if |parts| == 2 then
      JoinTwo(parts, '.');
      DefaultProjectIsOneSegment();
      assert parts[0] in parts && parts[1] in parts;
      Ok(TableInfo(DefaultProject, parts[0], parts[1]))
    else if |parts| == 3 then
      JoinThree(parts, '.');
      assert parts[0] in parts && parts[1] in parts && parts[2] in parts;
      Ok(TableInfo(parts[0], parts[1], parts[2]))
    else
      Err("Invalid table identifier: " + id)
  }

  /** Backticks around an identifier do not change how it parses. */
  lemma ParseIgnoresBackticks(w1: string, identifier: string, w2: string)
    requires AllIn(w1, Backticks) && AllIn(w2, Backticks)
    ensures ParseTableIdentifier(w1 + identifier + w2) == ParseTableIdentifier(identifier)
  {
    StripIgnoresPadding(w1, identifier, w2, Backticks);
  }

  /** The names of a table built from dot- and backtick-free parts come back
      from its two- and three-part identifiers, quoted or not. */
  lemma ParseTableIdentifierRoundTrip(project: string, dataset: string, table: string)
    requires '.' !in project && '.' !in dataset && '.' !in table
    requires '`' !in project && '`' !in dataset && '`' !in table
    ensures ParseTableIdentifier(Fqn(project, dataset, table)) == Ok(TableInfo(project, dataset, table))
    ensures ParseTableIdentifier("`" + Fqn(project, dataset, table) + "`") == Ok(TableInfo(project, dataset, table))
    ensures ParseTableIdentifier(dataset + "." + table) == Ok(TableInfo(DefaultProject, dataset, table))
  {
    var fqn := Fqn(project, dataset, table);
    var short := dataset + "." + table;
    assert '`' !in fqn && '`' !in short;
    StripUnpadded(fqn, Backticks);
    StripUnpadded(short, Backticks);
    SplitThree(project, dataset, table, '.');
    SplitTwo(dataset, table, '.');
    ParseIgnoresBackticks("`", fqn, "`");
  }

  /** `is_raw_table`: the dataset is checked before the table name, and `_live`
      before `_stable`; `None` for a table that is not raw. */
  function IsRawTable(dataset: string, table: string): (r: Option<TableType>)
    ensures EndsWith(dataset, "_live") || Contains(dataset, "_live.") ==> r == Some(Live)
    ensures (!(EndsWith(dataset, "_live") || Contains(dataset, "_live.")) &&
             (EndsWith(dataset, "_stable") || Contains(dataset, "_stable."))) ==> r == Some(Stable)
    ensures r.Some? <==> EndsWith(dataset, "_live") || Contains(dataset, "_live.") ||
                         EndsWith(dataset, "_stable") || Contains(dataset, "_stable.") ||
                         EndsWith(table, "_live") || EndsWith(table, "_stable")
  {
    if EndsWith(dataset, "_live") || Contains(dataset, "_live.") then Some(Live)
    else if EndsWith(dataset, "_stable") || Contains(dataset, "_stable.") then Some(Stable)
    else if EndsWith(table, "_live") then Some(Live)
    else if EndsWith(table, "_stable") then Some(Stable)
    else None
  }

  /** A name cannot end in both `_live` and `_stable`. */
  lemma LiveIsNotStable(s: string)
    requires EndsWith(s, "_live")
    ensures !EndsWith(s, "_stable")
  {
    assert s[|s| - 2] == s[|s| - 5..][3];
  }

  /** For a parsed dataset, which holds no dot, the `_live.` and `_stable.`
      substring tests never hold: only the suffixes decide. */
  lemma DottedTestsAreDead(dataset: string, table: string)
    requires '.' !in dataset
    ensures !Contains(dataset, "_live.") && !Contains(dataset, "_stable.")
    ensures IsRawTable(dataset, table) ==
      if EndsWith(dataset, "_live") then Some(Live)
      else if EndsWith(dataset, "_stable") then Some(Stable)
      else if EndsWith(table, "_live") then Some(Live)
      else if EndsWith(table, "_stable") then Some(Stable)
      else None
  {
    if Contains(dataset, "_live.") {
      ContainsChar(dataset, "_live.", '.');
    }
    if Contains(dataset, "_stable.") {
      ContainsChar(dataset, "_stable.", '.');
    }
  }

  /** The dataset of the template alternatives: every `_stable` removed, then `_derived`. */
  function DerivedDataset(dataset: string): string
  {
    RemoveAll(dataset, "_stable") + "_derived"
  }

  /** A `<product>_stable` dataset whose product holds no `_stable` derives
      `<product>_derived`. */
  lemma {:induction false} DerivedDatasetOfStable(product: string)
    requires !Contains(product, "_stable")
    ensures DerivedDataset(product + "_stable") == product + "_derived"
  {
    RemoveStableSuffix(product);
  }

  /** Removing `_stable` from `product + "_stable"` leaves `product`. */
  lemma {:induction false} RemoveStableSuffix(product: string)
    requires !Contains(product, "_stable")
    ensures RemoveAll(product + "_stable", "_stable") == product
    decreases |product|
  {
    var s := product + "_stable";
    if product == [] {
      assert s == "_stable";
      assert s[7..] == [];
    } else {
      assert !StartsWith(product, "_stable");
      assert s[..7] != "_stable" by {
        if |product| >= 7 {
          assert s[..7] == product[..7];
        } else {
          assert s[|product|] == '_' != "_stable"[|product|];
        }
      }
      assert s[1..] == product[1..] + "_stable";
      RemoveStableSuffix(product[1..]);
      assert [product[0]] + product[1..] == product;
    }
  }

  /** The alternatives the naming templates give for `table` once the derived
      dataset is known: one for the baseline and metrics pings, two for
      events, none otherwise. */
  function DerivedAlternatives(derived: string, table: string): (r: seq<Alternative>)
    ensures |r| == (if table == "baseline_v1" || table == "metrics_v1" then 1
                    else if table == "events_v1" then 2
                    else 0)
    ensures forall a :: a in r ==> StartsWith(a.table, derived + ".")
  {
    var prefix := derived + ".";
    if table == "baseline_v1" then
      PrefixStartsWith(prefix, "baseline_clients_daily_v1");
      [Alternative(prefix + "baseline_clients_daily_v1", "One row per client per day")]
    else if table == "metrics_v1" then
      PrefixStartsWith(prefix, "metrics_clients_daily_v1");
      [Alternative(prefix + "metrics_clients_daily_v1", "One row per client per day, aggregated metrics")]
    else if table == "events_v1" then
      PrefixStartsWith(prefix, "events_daily_v1");
      PrefixStartsWith(prefix, "events_stream_v1");
      [Alternative(prefix + "events_daily_v1", "One row per client per event type per day (if exists)"),
       Alternative(prefix + "events_stream_v1", "Individual event records")]
    else []
  }

  lemma PrefixStartsWith(prefix: string, rest: string)
    ensures StartsWith(prefix + rest, prefix)
  {
    assert (prefix + rest)[..|prefix|] == prefix;
  }

  /** The naming templates: only a `_stable` dataset has any, named after its
      derived dataset. */
  function TemplateAlternatives(dataset: string, table: string): (r: seq<Alternative>)
    ensures !EndsWith(dataset, "_stable") ==> r == []
    ensures EndsWith(dataset, "_stable") ==> r == DerivedAlternatives(DerivedDataset(dataset), table)
  {
    if EndsWith(dataset, "_stable") then DerivedAlternatives(DerivedDataset(dataset), table) else []
  }

  /** `get_known_alternatives`: the catalogue entry for `shortName` when there
      is one, else the templates. */
  function GetKnownAlternatives(shortName: string, info: TableInfo): (r: seq<Alternative>)
    ensures shortName in KnownAlternatives ==> r == KnownAlternatives[shortName]
    ensures shortName !in KnownAlternatives ==> r == TemplateAlternatives(info.dataset, info.table)
  {
    if shortName in KnownAlternatives then KnownAlternatives[shortName]
    else TemplateAlternatives(info.dataset, info.table)
  }

  /** Every `<product>_stable` table is templated from `<product>_derived`. */
  lemma StableTemplate(product: string, table: string)
    requires !Contains(product, "_stable")
    ensures TemplateAlternatives(product + "_stable", table) == DerivedAlternatives(product + "_derived", table)
  {
    var dataset := product + "_stable";
    assert EndsWith(dataset, "_stable") by {
      assert dataset[|dataset| - 7..] == "_stable";
    }
    DerivedDatasetOfStable(product);
  }

  /** The baseline ping's template: the daily per-client table. */
  lemma BaselineTemplate(derived: string)
    ensures DerivedAlternatives(derived, "baseline_v1")
         == [Alternative(derived + "." + "baseline_clients_daily_v1", "One row per client per day")]
  {
  }

  /** The metrics ping's template: the daily per-client metrics table. */
  lemma MetricsTemplate(derived: string)
    ensures DerivedAlternatives(derived, "metrics_v1")
         == [Alternative(derived + "." + "metrics_clients_daily_v1", "One row per client per day, aggregated metrics")]
  {
  }

  /** The events ping's templates: the daily event counts, then the event stream. */
  lemma EventsTemplate(derived: string)
    ensures DerivedAlternatives(derived, "events_v1")
         == [Alternative(derived + "." + "events_daily_v1", "One row per client per event type per day (if exists)"),
             Alternative(derived + "." + "events_stream_v1", "Individual event records")]
  {
  }

  /** `<product>_stable.baseline_v1` is templated to
      `<product>_derived.baseline_clients_daily_v1`. */
  lemma StableBaselineTemplate(product: string)
    requires !Contains(product, "_stable")
    ensures TemplateAlternatives(product + "_stable", "baseline_v1")
         == [Alternative(product + "_derived" + "." + "baseline_clients_daily_v1", "One row per client per day")]
  {
    StableTemplate(product, "baseline_v1");
    BaselineTemplate(product + "_derived");
  }

  /** `<product>_stable.metrics_v1` is templated to
      `<product>_derived.metrics_clients_daily_v1`. */
  lemma StableMetricsTemplate(product: string)
    requires !Contains(product, "_stable")
    ensures TemplateAlternatives(product + "_stable", "metrics_v1")
         == [Alternative(product + "_derived" + "." + "metrics_clients_daily_v1", "One row per client per day, aggregated metrics")]
  {
    StableTemplate(product, "metrics_v1");
    MetricsTemplate(product + "_derived");
  }

  /** `<product>_stable.events_v1` is templated to `<product>_derived.events_daily_v1`
      and `<product>_derived.events_stream_v1`, in that order. */
  lemma StableEventsTemplate(product: string)
    requires !Contains(product, "_stable")
    ensures TemplateAlternatives(product + "_stable", "events_v1")
         == [Alternative(product + "_derived" + "." + "events_daily_v1", "One row per client per event type per day (if exists)"),
             Alternative(product + "_derived" + "." + "events_stream_v1", "Individual event records")]
  {
    StableTemplate(product, "events_v1");
    EventsTemplate(product + "_derived");
  }

  /** An uncatalogued `<product>_stable.<table>` gets the templates named after
      `<product>_derived`. */
  lemma UncataloguedStableUsesTemplate(project: string, product: string, table: string)
    requires !Contains(product, "_stable")
    requires product + "_stable." + table !in KnownAlternatives
    ensures GetKnownAlternatives(product + "_stable." + table, TableInfo(project, product + "_stable", table))
         == DerivedAlternatives(product + "_derived", table)
  {
    StableTemplate(product, table);
  }

  /** A `_live` table missing from the catalogue gets no alternatives. */
  lemma UncataloguedLiveHasNoAlternatives(shortName: string, info: TableInfo)
    requires shortName !in KnownAlternatives && EndsWith(info.dataset, "_live")
    ensures GetKnownAlternatives(shortName, info) == []
  {
    LiveIsNotStable(info.dataset);
  }

  /** `generate_lineage_query_params`: one downstream hop from the table. */
  function GenerateLineageQueryParams(info: TableInfo): (q: LineageQuery)
    ensures q.tool == LineageTool
    ensures q.parameters.urn == DatasetUrn(info.FullName())
    ensures !q.parameters.upstream && q.parameters.maxHops == 1
  {
    LineageQuery(LineageTool, LineageParameters(DatasetUrn(info.FullName()), false, 1))
  }

  /** The analysis of one identifier: a parse error, or the parsed table with
      its classification and, for a raw table only, alternatives and lineage query. */
  datatype CheckResult =
    | ParseError(error: string, table: string)
    | Checked(table: string, parsed: TableInfo, tableType: Option<TableType>,
              knownAlternatives: Option<seq<Alternative>>, lineageQuery: Option<LineageQuery>)
  {
    /** `is_raw`. */
    predicate IsRaw()
    {
      Checked? && tableType.Some?
    }
  }

  /** `check_table`: a parse error becomes an error result instead of escaping. */
  function CheckTable(identifier: string): (r: CheckResult)
    ensures r.ParseError? <==> ParseTableIdentifier(identifier).Err?
    ensures r.ParseError? ==> r.error == ParseTableIdentifier(identifier).message && r.table == identifier
    ensures r.Checked? ==> r.table == identifier && r.parsed == ParseTableIdentifier(identifier).value &&
                           r.tableType == IsRawTable(r.parsed.dataset, r.parsed.table)
    ensures r.Checked? ==> (r.knownAlternatives.Some? <==> r.IsRaw()) && (r.lineageQuery.Some? <==> r.IsRaw())
    ensures r.Checked? && r.IsRaw() ==>
      r.knownAlternatives.value == GetKnownAlternatives(r.parsed.ShortName(), r.parsed) &&
      r.lineageQuery.value == GenerateLineageQueryParams(r.parsed)
  {
    var parsed := ParseTableIdentifier(identifier);
    if parsed.Err? then ParseError(parsed.message, identifier)
    else
      var info := parsed.value;
      var tableType := IsRawTable(info.dataset, info.table);
      if tableType.Some? then
        Checked(identifier, info, tableType, Some(GetKnownAlternatives(info.ShortName(), info)),
                Some(GenerateLineageQueryParams(info)))
      else
        Checked(identifier, info, None, None, None)
  }

  /** Some non-error result is a raw table. */
  function AnyRaw(results: seq<CheckResult>): (b: bool)
    ensures b <==> exists i :: 0 <= i < |results| && results[i].IsRaw()
  {
    if results == [] then false
    else
      var rest := AnyRaw(results[1..]);
      assert forall i :: 1 <= i < |results| ==> results[i] == results[1..][i - 1];
      results[0].IsRaw() || rest
  }

  /** The exit status: 1 when some checked table is raw, 0 otherwise. */
  function ExitStatus(results: seq<CheckResult>): (code: int)
    ensures code == 0 || code == 1
    ensures code == 1 <==> exists i :: 0 <= i < |results| && results[i].Checked? && results[i].tableType.Some?
  {
    if AnyRaw(results) then 1 else 0
  }
}
