/** Worked classifications of sample table identifiers. */
module AggregatedAlternativesScenarios {
  import opened Wrappers
  import opened Text
  import opened BigQueryNames
  import opened AggregatedAlternatives

  /** A catalogued `_stable` table: the catalogue entry wins and names the daily clients table. */
  lemma TelemetryStableMainUsesCatalogue()
    ensures var r := GetKnownAlternatives("telemetry_stable.main_v4", TableInfo(DefaultProject, "telemetry_stable", "main_v4"));
      |r| == 2 && r[0].table == "telemetry_derived.clients_daily_v1"
  {
  }

  /** Any dot-free `<product>_stable` dataset is raw, of the stable kind. */
  lemma StableDatasetIsRaw(product: string, table: string)
    requires '.' !in product
    ensures IsRawTable(product + "_stable", table) == Some(Stable)
  {
    var dataset := product + "_stable";
    DottedTestsAreDead(dataset, table);
    assert dataset[|product|..] == "_stable";
    assert dataset[|dataset| - 5] == 't';
  }

  /** `telemetry_stable.main_v4` is a raw table of the stable kind. */
  lemma TelemetryStableMainIsRaw()
    ensures IsRawTable("telemetry_stable", "main_v4") == Some(Stable)
  {
    StableDatasetIsRaw("telemetry", "main_v4");
    assert "telemetry" + "_stable" == "telemetry_stable";
  }

  /** Names whose last character is not `e` end in neither `_live` nor
      `_stable`, so such a dataset and table are not raw. */
  lemma NotRawUnlessEndingInE(dataset: string, table: string)
    requires '.' !in dataset
    requires |dataset| > 0 && dataset[|dataset| - 1] != 'e'
    requires |table| > 0 && table[|table| - 1] != 'e'
    ensures IsRawTable(dataset, table) == None
  {
    DottedTestsAreDead(dataset, table);
  }

  /** The daily clients table is derived: not raw. */
  lemma ClientsDailyIsNotRaw()
    ensures IsRawTable("telemetry_derived", "clients_daily_v1") == None
  {
    assert "telemetry_derived"[16] == 'd';
    assert "clients_daily_v1"[15] == '1';
    NotRawUnlessEndingInE("telemetry_derived", "clients_daily_v1");
  }

  /** The daily clients table is uncatalogued and not `_stable`, so it has no alternatives. */
  lemma ClientsDailyHasNoAlternatives()
    ensures GetKnownAlternatives("telemetry_derived.clients_daily_v1",
                                 TableInfo(DefaultProject, "telemetry_derived", "clients_daily_v1")) == []
  {
    assert "telemetry_derived.clients_daily_v1" !in KnownAlternatives;
    assert !EndsWith("telemetry_derived", "_stable") by { assert "telemetry_derived"[10..][0] != '_'; }
  }

  /** An uncatalogued baseline table of a product's `_stable` dataset is pointed
      at the product's daily clients table: `xyz_stable.baseline_v1` gets
      `xyz_derived.baseline_clients_daily_v1`. */
  lemma UncataloguedBaselineUsesTemplate()
    ensures GetKnownAlternatives("xyz_stable.baseline_v1", TableInfo(DefaultProject, "xyz_stable", "baseline_v1"))
         == [Alternative("xyz_derived.baseline_clients_daily_v1", "One row per client per day")]
  {
    assert "xyz_stable.baseline_v1" !in KnownAlternatives;
    assert !Contains("xyz", "_stable") by {
      if Contains("xyz", "_stable") {
        ContainsChar("xyz", "_stable", '_');
        assert false;
      }
    }
    StableBaselineTemplate("xyz");
    assert "xyz" + "_stable" == "xyz_stable";
    XyzBaselineName();
  }

  /** The derived table's name, spelled out. */
  lemma XyzBaselineName()
    ensures "xyz" + "_derived" + "." + "baseline_clients_daily_v1" == "xyz_derived.baseline_clients_daily_v1"
  {
  }
}
