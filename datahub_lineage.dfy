/** Lineage helper: reads a table identifier (dotted, or a dataset locator of
    the lineage catalog), builds the parameters of a lineage query, and trims a
    lineage response down to the tables it names. */
module DatahubLineage {
  import opened Wrappers
  import opened Text
  import opened BigQueryNames
  import AggregatedAlternatives

  /** A parsed identifier: a located table with its locator and qualified
      name, or a locator whose table could not be read (project, dataset and
      table all absent, and no qualified name). */
  datatype TableRecord =
    | Located(project: string, dataset: string, table: string, urn: string, fqn: string)
    | Unlocated(urn: string)

  /** The located record of `project.dataset.table`. */
  function LocatedRecord(project: string, dataset: string, table: string): TableRecord
  {
    Located(project, dataset, table, DatasetUrn(Fqn(project, dataset, table)), Fqn(project, dataset, table))
  }

  /** The dotted forms: `dataset.table` in the default project, or
      `project.dataset.table`; any other number of dots is an error. */
  function ParseDotted(identifier: string): (r: Result<TableRecord>)
    ensures r.Ok? <==> Count(identifier, '.') == 1 || Count(identifier, '.') == 2
    ensures r.Err? ==> r.message == "Invalid table identifier format: " + identifier
    ensures r.Ok? ==>
      r.value.Located? && r.value == LocatedRecord(r.value.project, r.value.dataset, r.value.table) &&
      '.' !in r.value.project && '.' !in r.value.dataset && '.' !in r.value.table
    ensures r.Ok? && Count(identifier, '.') == 1 ==>
      r.value.project == DefaultProject && r.value.dataset + "." + r.value.table == identifier
    ensures r.Ok? && Count(identifier, '.') == 2 ==> r.value.fqn == identifier
  {
    var parts := Split(identifier, '.');
    if |parts| == 2 then
      JoinTwo(parts, '.');
      DefaultProjectIsOneSegment();
      assert parts[0] in parts && parts[1] in parts;
      Ok(LocatedRecord(DefaultProject, parts[0], parts[1]))
    else if |parts| == 3 then
      JoinThree(parts, '.');
      assert parts[0] in parts && parts[1] in parts && parts[2] in parts;
      Ok(LocatedRecord(parts[0], parts[1], parts[2]))
    else
      Err("Invalid table identifier format: " + identifier)
  }

  /** `parse_table_identifier`: a dataset locator is read again from its second
      comma-separated piece, a locator without a comma stays unlocated, and
      anything else is a dotted identifier. The piece holds no comma, so the
      locator is unwrapped at most once: a piece that is itself locator-shaped
      comes back unlocated. */
  function ParseTableIdentifier(identifier: string): (r: Result<TableRecord>)
    ensures !StartsWith(identifier, DatasetUrnPrefix) ==> r == ParseDotted(identifier)
    ensures StartsWith(identifier, DatasetUrnPrefix) && ',' !in identifier ==> r == Ok(Unlocated(identifier))
    ensures StartsWith(identifier, DatasetUrnPrefix) && ',' in identifier ==>
      var fqn := Split(identifier, ',')[1];
      r == if StartsWith(fqn, DatasetUrnPrefix) then Ok(Unlocated(fqn)) else ParseDotted(fqn)
    decreases Count(identifier, ',')
  {
    if StartsWith(identifier, DatasetUrnPrefix) then
      var parts := Split(identifier, ',');
      SplitSeveral(identifier, ',');
      if |parts| >= 2 then
        assert parts[1] in parts;
        assert Split(parts[1], ',') == [parts[1]];
        ParseTableIdentifier(parts[1])
      else
        Ok(Unlocated(identifier))
    else
      ParseDotted(identifier)
  }

  /** A dotted identifier built from dot-free parts parses back to them. */
  lemma ParseDottedRoundTrip(project: string, dataset: string, table: string)
    requires '.' !in project && '.' !in dataset && '.' !in table
    ensures ParseDotted(Fqn(project, dataset, table)) == Ok(LocatedRecord(project, dataset, table))
    ensures ParseDotted(dataset + "." + table) == Ok(LocatedRecord(DefaultProject, dataset, table))
  {
    SplitThree(project, dataset, table, '.');
    SplitTwo(dataset, table, '.');
  }

  /** The locator of a comma-free name splits into the platform, the name and
      the environment. */
  lemma DatasetUrnPieces(fqn: string)
    requires ',' !in fqn
    ensures Split(DatasetUrn(fqn), ',') == [DatasetUrnPrefix + BigQueryPlatform, fqn, ProdEnvironment]
    ensures StartsWith(DatasetUrn(fqn), DatasetUrnPrefix)
  {
    UrnPiecesAreCommaFree();
    SplitThree(DatasetUrnPrefix + BigQueryPlatform, fqn, ProdEnvironment, ',');
    assert DatasetUrn(fqn)[..|DatasetUrnPrefix|] == DatasetUrnPrefix;
  }

  /** Reading the locator of a comma-free name reads the name itself. */
  lemma ParseUrnOfName(fqn: string)
    requires ',' !in fqn
    ensures ParseTableIdentifier(DatasetUrn(fqn)) == ParseTableIdentifier(fqn)
  {
    DatasetUrnPieces(fqn);
    assert fqn in Split(DatasetUrn(fqn), ',');
  }

  /** A dotted name whose first part does not look like a locator does not
      either. */
  lemma DottedIsNotALocator(first: string, rest: string)
    requires '.' !in first && !StartsWith(first, DatasetUrnPrefix)
    ensures !StartsWith(first + "." + rest, DatasetUrnPrefix)
  {
    var s := first + "." + rest;
    if |first| >= |DatasetUrnPrefix| {
      assert s[..|DatasetUrnPrefix|] == first[..|DatasetUrnPrefix|];
    } else {
      DatasetUrnPrefixHasNoDot();
      assert s[|first|] == '.';
      assert DatasetUrnPrefix[|first|] in DatasetUrnPrefix;
    }
  }

  /** Round trip: the locator built for a table reads back as that table, as
      does its qualified name, provided the parts hold no `.` or `,` and the
      project does not itself look like a locator. */
  lemma ParseUrnRoundTrip(project: string, dataset: string, table: string)
    requires '.' !in project && '.' !in dataset && '.' !in table
    requires ',' !in project && ',' !in dataset && ',' !in table
    requires !StartsWith(project, DatasetUrnPrefix)
    ensures ParseTableIdentifier(DatasetUrn(Fqn(project, dataset, table))) == Ok(LocatedRecord(project, dataset, table))
    ensures ParseTableIdentifier(Fqn(project, dataset, table)) == Ok(LocatedRecord(project, dataset, table))
  {
    var fqn := Fqn(project, dataset, table);
    DottedIsNotALocator(project, dataset + "." + table);
    assert fqn == project + "." + (dataset + "." + table);
    ParseDottedRoundTrip(project, dataset, table);
    ParseUrnOfName(fqn);
  }

  /** The default project does not look like a locator. */
  lemma DefaultProjectIsNotALocator()
    ensures !StartsWith(DefaultProject, DatasetUrnPrefix)
  {
    DefaultProjectIsOneSegment();
    assert DefaultProject[..|DatasetUrnPrefix|][0] != DatasetUrnPrefix[0];
  }

  /** A two-part identifier and the locator built for it read as the same
      table of the default project, unless the dataset looks like a locator. */
  lemma ParseShortNameRoundTrip(dataset: string, table: string)
    requires '.' !in dataset && '.' !in table && ',' !in dataset && ',' !in table
    requires !StartsWith(dataset, DatasetUrnPrefix)
    ensures ParseTableIdentifier(dataset + "." + table) == Ok(LocatedRecord(DefaultProject, dataset, table))
    ensures ParseTableIdentifier(DatasetUrn(Fqn(DefaultProject, dataset, table)))
         == Ok(LocatedRecord(DefaultProject, dataset, table))
  {
    DottedIsNotALocator(dataset, table);
    ParseDottedRoundTrip(DefaultProject, dataset, table);
    DefaultProjectIsOneSegment();
    DefaultProjectIsNotALocator();
    ParseUrnRoundTrip(DefaultProject, dataset, table);
  }

  /** Where the round trip stops: a project that itself starts like a locator
      (`urn:li:dataset:x`, say) makes the built locator read back unlocated. */
  lemma LocatorShapedProjectStaysUnlocated(project: string, dataset: string, table: string)
    requires StartsWith(project, DatasetUrnPrefix)
    requires ',' !in project && ',' !in dataset && ',' !in table
    ensures ParseTableIdentifier(DatasetUrn(Fqn(project, dataset, table))) == Ok(Unlocated(Fqn(project, dataset, table)))
  {
    var fqn := Fqn(project, dataset, table);
    assert fqn[..|DatasetUrnPrefix|] == project[..|DatasetUrnPrefix|];
    DatasetUrnPieces(fqn);
  }

  /** One entity of a lineage response; an absent locator reads as `""` and an
      absent type as `"dataset"`. */
  datatype Entity = Entity(urn: Option<string>, entityType: Option<string>)

  /** A lineage response that is present and not empty. A response without
      an entity list has no entities. */
  datatype LineageResponse = LineageResponse(entities: seq<Entity>)

  /** The project, dataset and table read from a qualified name. */
  datatype Location = Location(project: string, dataset: string, table: string)

  /** One table of the trimmed result; `location` is present only when the
      qualified name has at least three dot-separated parts. */
  datatype TableEntry = TableEntry(urn: string, fqn: string, entityType: string, location: Option<Location>)

  /** The trimmed lineage result. */
  datatype LineageResult = LineageResult(direction: string, tables: seq<TableEntry>)

  /** The entity's locator, `""` when absent. */
  function UrnOf(e: Entity): string
  {
    if e.urn.Some? then e.urn.value else ""
  }

  /** The entity names a BigQuery dataset: its locator mentions `bigquery` and
      `dataset:` and has a second comma-separated piece. */
  predicate IsKept(e: Entity)
  {
    Contains(UrnOf(e), BigQuery) && Contains(UrnOf(e), DatasetKind) && |Split(UrnOf(e), ',')| >= 2
  }

  /** The location of a qualified name: its first two dot-separated parts and
      the rest joined back with dots. */
  function LocationOf(fqn: string): (loc: Option<Location>)
    ensures loc.Some? <==> Count(fqn, '.') >= 2
    ensures loc.Some? ==>
      '.' !in loc.value.project && '.' !in loc.value.dataset &&
      Fqn(loc.value.project, loc.value.dataset, loc.value.table) == fqn
  {
    var parts := Split(fqn, '.');
    if |parts| >= 3 then
      JoinFirstTwo(parts, '.');
      assert parts[0] in parts && parts[1] in parts;
      Some(Location(parts[0], parts[1], Join(parts[2..], '.')))
    else
      None
  }

  /** The table entry of a kept entity. */
  function EntryOf(e: Entity): TableEntry
    requires IsKept(e)
  {
    var fqn := Split(UrnOf(e), ',')[1];
    TableEntry(UrnOf(e), fqn, if e.entityType.Some? then e.entityType.value else "dataset", LocationOf(fqn))
  }

  /** What one entity contributes: its entry when kept, nothing otherwise. */
  function Read(e: Entity): Option<TableEntry>
  {
    if IsKept(e) then Some(EntryOf(e)) else None
  }

  /** What each entity contributes, in response order. */
  function Reads(entities: seq<Entity>): seq<Option<TableEntry>>
  {
    seq(|entities|, i requires 0 <= i < |entities| => Read(entities[i]))
  }

  /** The present values, in order. */
  function Present(rs: seq<Option<TableEntry>>): seq<TableEntry>
  {
    if rs == [] then []
    else
      var last := rs[|rs| - 1];
      Present(rs[..|rs| - 1]) + (if last.Some? then [last.value] else [])
  }

  /** The entries of the kept entities, in order. */
  function Kept(entities: seq<Entity>): seq<TableEntry>
  {
    Present(Reads(entities))
  }

  /** The body of the loop in `format_lineage_result`: whether the entity is
      kept and, if so, its table entry, with the location added only when the
      qualified name has enough parts. */
  method ReadEntity(entity: Entity) returns (kept: bool, tableInfo: TableEntry)
    ensures kept <==> IsKept(entity)
    ensures kept ==> Read(entity) == Some(tableInfo)
  {
    kept := false;
    tableInfo := TableEntry("", "", "", None);
    var urn := if entity.urn.Some? then entity.urn.value else "";
    if Contains(urn, BigQuery) && Contains(urn, DatasetKind) {
      var parts := Split(urn, ',');
      if |parts| >= 2 {
        var fqn := parts[1];
        tableInfo := TableEntry(urn, fqn, if entity.entityType.Some? then entity.entityType.value else "dataset", None);
        var fqnParts := Split(fqn, '.');
        if |fqnParts| >= 3 {
          tableInfo := tableInfo.(location := Some(Location(fqnParts[0], fqnParts[1], Join(fqnParts[2..], '.'))));
        }
        kept := true;
      }
    }
  }

  /** `format_lineage_result`: no response gives no tables; otherwise one entry
      per kept entity, in response order. */
  method FormatLineageResult(data: Option<LineageResponse>, direction: string) returns (result: LineageResult)
    ensures result.direction == direction
    ensures result.tables == if data.None? then [] else Kept(data.value.entities)
  {
    result := LineageResult(direction, []);
    if data.None? {
      return;
    }
    var entities := data.value.entities;
    var i := 0;
    while i < |entities|
      invariant 0 <= i <= |entities|
      invariant result == LineageResult(direction, Kept(entities[..i]))
    {
      var kept, tableInfo := ReadEntity(entities[i]);
      if kept {
        result := result.(tables := result.tables + [tableInfo]);
      }
      KeptStep(entities, i);
      i := i + 1;
    }
    assert entities[..i] == entities;
  }

  /** The contributions of a concatenation are those of its halves. */
  lemma ReadsAppend(a: seq<Entity>, b: seq<Entity>)
    ensures Reads(a + b) == Reads(a) + Reads(b)
  {
  }

  /** Collecting distributes over concatenation. */
  lemma {:induction false} PresentAppend(a: seq<Option<TableEntry>>, b: seq<Option<TableEntry>>)
    ensures Present(a + b) == Present(a) + Present(b)
    decreases |b|
  {
    if b == [] {
      assert a + b == a;
    } else {
      assert (a + b)[..|a + b| - 1] == a + b[..|b| - 1];
      PresentAppend(a, b[..|b| - 1]);
    }
  }

  /** A value is collected exactly when it occurs. */
  lemma {:induction false} PresentExactly(rs: seq<Option<TableEntry>>, t: TableEntry)
    ensures t in Present(rs) <==> Some(t) in rs
    decreases |rs|
  {
    if rs != [] {
      PresentExactly(rs[..|rs| - 1], t);
      assert rs == rs[..|rs| - 1] + [rs[|rs| - 1]];
    }
  }

  /** Trimming distributes over concatenation: entries keep response order. */
  lemma KeptAppend(a: seq<Entity>, b: seq<Entity>)
    ensures Kept(a + b) == Kept(a) + Kept(b)
  {
    ReadsAppend(a, b);
    PresentAppend(Reads(a), Reads(b));
  }

  /** A single entity gives its entry when kept and nothing otherwise. */
  lemma KeptOne(e: Entity)
    ensures Kept([e]) == if IsKept(e) then [EntryOf(e)] else []
  {
    var rs := Reads([e]);
    assert rs == [Read(e)];
    assert rs[..0] == [];
    assert Present(rs) == Present(rs[..0]) + if Read(e).Some? then [Read(e).value] else [];
  }

  /** One more entity adds its entry when it is kept. */
  lemma KeptStep(entities: seq<Entity>, i: nat)
    requires i < |entities|
    ensures Kept(entities[..i + 1]) == Kept(entities[..i]) + if IsKept(entities[i]) then [EntryOf(entities[i])] else []
  {
    assert entities[..i + 1] == entities[..i] + [entities[i]];
    KeptAppend(entities[..i], [entities[i]]);
    KeptOne(entities[i]);
  }

  /** Soundness and completeness: an entry is in the result exactly when some
      entity of the response is kept and gives it. */
  lemma KeptExactly(entities: seq<Entity>, t: TableEntry)
    ensures t in Kept(entities) <==> exists i :: 0 <= i < |entities| && Read(entities[i]) == Some(t)
  {
    var rs := Reads(entities);
    PresentExactly(rs, t);
    if Some(t) in rs {
      var i :| 0 <= i < |rs| && rs[i] == Some(t);
      assert Read(entities[i]) == Some(t);
    }
    if exists i :: 0 <= i < |entities| && Read(entities[i]) == Some(t) {
      var i :| 0 <= i < |entities| && Read(entities[i]) == Some(t);
      assert rs[i] == Some(t);
    }
  }

  /** Every entry names its table: the qualified name is the second piece of
      the locator and holds no comma, and a location reassembles to it. */
  lemma KeptEntriesAreConsistent(entities: seq<Entity>)
    ensures forall t :: t in Kept(entities) ==>
      |Split(t.urn, ',')| >= 2 && t.fqn == Split(t.urn, ',')[1] && ',' !in t.fqn &&
      (t.location.Some? ==> Fqn(t.location.value.project, t.location.value.dataset, t.location.value.table) == t.fqn)
  {
    forall t | t in Kept(entities)
      ensures |Split(t.urn, ',')| >= 2 && t.fqn == Split(t.urn, ',')[1] && ',' !in t.fqn
      ensures t.location.Some? ==> Fqn(t.location.value.project, t.location.value.dataset, t.location.value.table) == t.fqn
    {
      KeptExactly(entities, t);
      var i :| 0 <= i < |entities| && Read(entities[i]) == Some(t);
      assert Split(t.urn, ',')[1] in Split(t.urn, ',');
    }
  }

  /** A table's locator mentions `bigquery` and `dataset:`. */
  lemma DatasetUrnMentionsBigQueryDataset(fqn: string)
    ensures Contains(DatasetUrn(fqn), BigQuery) && Contains(DatasetUrn(fqn), DatasetKind)
  {
    var urn := DatasetUrn(fqn);
    var tail := "," + fqn + "," + ProdEnvironment;
    assert urn == (UrnScheme + DatasetKind + PlatformPrefix) + BigQuery + tail;
    ContainsInfix(UrnScheme + DatasetKind + PlatformPrefix, BigQuery, tail);
    assert urn == UrnScheme + DatasetKind + (PlatformPrefix + BigQuery + tail);
    ContainsInfix(UrnScheme, DatasetKind, PlatformPrefix + BigQuery + tail);
  }

  /** The location of `project.dataset.table` is that table, whatever dots the
      table name holds. */
  lemma LocationOfFqn(project: string, dataset: string, table: string)
    requires '.' !in project && '.' !in dataset
    ensures LocationOf(Fqn(project, dataset, table)) == Some(Location(project, dataset, table))
  {
    var parts := Split(Fqn(project, dataset, table), '.');
    assert Fqn(project, dataset, table) == project + "." + (dataset + "." + table);
    SplitAtFirst(project, dataset + "." + table, '.');
    SplitAtFirst(dataset, table, '.');
    assert parts == [project, dataset] + Split(table, '.');
    assert parts[2..] == Split(table, '.');
  }

  /** The entity of a table's own locator is kept and located at that table. */
  lemma LocatorEntryIsLocated(project: string, dataset: string, table: string, entityType: Option<string>)
    requires '.' !in project && '.' !in dataset
    requires ',' !in project && ',' !in dataset && ',' !in table
    ensures var e := Entity(Some(DatasetUrn(Fqn(project, dataset, table))), entityType);
      IsKept(e) && EntryOf(e).fqn == Fqn(project, dataset, table) &&
      EntryOf(e).location == Some(Location(project, dataset, table))
  {
    var fqn := Fqn(project, dataset, table);
    DatasetUrnPieces(fqn);
    DatasetUrnMentionsBigQueryDataset(fqn);
    LocationOfFqn(project, dataset, table);
  }

  /** The parameter record `get_lineage_via_mcp` hands to the lineage tool. */
  function GetLineageViaMcp(tableUrn: string, direction: string, maxHops: int): (q: LineageQuery)
    ensures q.tool == LineageTool
    ensures q.parameters.urn == tableUrn && q.parameters.maxHops == maxHops
    ensures q.parameters.upstream <==> direction == "upstream"
  {
    LineageQuery(LineageTool, LineageParameters(tableUrn, direction == "upstream", maxHops))
  }

  /** The query the command line asks for: the identifier's locator, the
      direction and the number of hops; a malformed identifier is an error. */
  function LineageQueryFor(identifier: string, direction: string, maxHops: int): (r: Result<LineageQuery>)
    ensures r.Err? <==> ParseTableIdentifier(identifier).Err?
    ensures r.Ok? ==> r.value == GetLineageViaMcp(ParseTableIdentifier(identifier).value.urn, direction, maxHops)
  {
    var parsed := ParseTableIdentifier(identifier);
    if parsed.Err? then Err(parsed.message) else Ok(GetLineageViaMcp(parsed.value.urn, direction, maxHops))
  }

  /** The raw-table check and this helper ask for the same downstream
      one-hop query about a table named `project.dataset.table`. */
  lemma SameQueryAsRawTableCheck(project: string, dataset: string, table: string)
    requires '.' !in project && '.' !in dataset && '.' !in table
    requires ',' !in project && ',' !in dataset && ',' !in table
    requires '`' !in project && '`' !in dataset && '`' !in table
    requires !StartsWith(project, DatasetUrnPrefix)
    ensures AggregatedAlternatives.ParseTableIdentifier(Fqn(project, dataset, table)).Ok?
    ensures LineageQueryFor(Fqn(project, dataset, table), "downstream", 1)
         == Ok(AggregatedAlternatives.GenerateLineageQueryParams(AggregatedAlternatives.ParseTableIdentifier(Fqn(project, dataset, table)).value))
  {
    AggregatedAlternatives.ParseTableIdentifierRoundTrip(project, dataset, table);
    ParseUrnRoundTrip(project, dataset, table);
  }
}
