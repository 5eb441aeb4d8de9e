/** Base-schema matching preview: which columns of a table's schema would take
    their canonical name and description from the dataset's base schema or
    from the global base schema. Schemas arrive already loaded; a file that is
    missing or cannot be read is `None`. */
module PreviewBaseSchema {
  import opened Wrappers
  import opened Text
  import opened BigQueryNames

  /** A parsed `[project.]dataset.table` reference. */
  datatype TableRef = TableRef(project: string, dataset: string, table: string)

  /** One entry of a schema's `fields` list. A missing `description` is `""`
      and missing `aliases` are `[]`. */
  datatype Field = Field(name: string, description: string, aliases: seq<string>)

  /** A loaded schema document: its ordered `fields`. */
  datatype Schema = Schema(fields: seq<Field>)

  /** Whether a base field was found by its `name` or through its `aliases`. */
  datatype MatchKind = ByName | ByAlias

  /** A base field together with how it was found. */
  datatype FieldMatch = FieldMatch(field: Field, kind: MatchKind)

  /** The base schemas a preview consults: the dataset's own (labelled
      `<dataset>.yaml`) and the global one, each absent when not enabled or
      not loaded. */
  datatype BaseSchemas = BaseSchemas(datasetName: string, dataset: Option<Schema>, global: Option<Schema>)

  /** A resolved query field: the label of the schema that supplied it and the match. */
  datatype Resolution = Resolution(source: string, found: FieldMatch)

  /** `(field_name, source, match_type, base_name, base_description)`. */
  datatype MatchedField = MatchedField(fieldName: string, source: string, kind: MatchKind, baseName: string, baseDescription: string)

  /** `(field_name, source, old_description, new_description)`. */
  datatype OverwrittenField = OverwrittenField(fieldName: string, source: string, oldDescription: string, newDescription: string)

  /** `(alias, canonical_name)`. */
  datatype AliasRecommendation = AliasRecommendation(alias: string, canonicalName: string)

  /** The four result lists of a preview. */
  datatype Report = Report(
    matched: seq<MatchedField>,
    overwritten: seq<OverwrittenField>,
    missingDescription: seq<string>,
    aliasRecommendations: seq<AliasRecommendation>)

  const GlobalLabel: string := "global.yaml"

  /** Parses `dataset.table` (in the default project) or `project.dataset.table`.
      Empty segments are accepted; any other number of dots is an error. */
  function ParseTableIdentifier(identifier: string): (r: Result<TableRef>)
    ensures r.Ok? <==> Count(identifier, '.') == 1 || Count(identifier, '.') == 2
    ensures r.Err? ==> r.message == "Invalid table identifier format: " + identifier
    ensures r.Ok? ==> '.' !in r.value.project && '.' !in r.value.dataset && '.' !in r.value.table
    ensures r.Ok? && Count(identifier, '.') == 1 ==>
      r.value.project == DefaultProject && r.value.dataset + "." + r.value.table == identifier
    ensures r.Ok? && Count(identifier, '.') == 2 ==>
      Fqn(r.value.project, r.value.dataset, r.value.table) == identifier
  {
    var parts := Split(identifier, '.');
    if |parts| == 2 then
      JoinTwo(parts, '.');
      DefaultProjectIsOneSegment();
      assert parts[0] in parts && parts[1] in parts;
      Ok(TableRef(DefaultProject, parts[0], parts[1]))
    else if |parts| == 3 then
      JoinThree(parts, '.');
      assert parts[0] in parts && parts[1] in parts && parts[2] in parts;
      Ok(TableRef(parts[0], parts[1], parts[2]))
    else
      Err("Invalid table identifier format: " + identifier)
  }

  /** Parsing gives back the parts of a dotted identifier built from dot-free parts. */
  lemma ParseTableIdentifierRoundTrip(project: string, dataset: string, table: string)
    requires '.' !in project && '.' !in dataset && '.' !in table
    ensures ParseTableIdentifier(Fqn(project, dataset, table)) == Ok(TableRef(project, dataset, table))
    ensures ParseTableIdentifier(dataset + "." + table) == Ok(TableRef(DefaultProject, dataset, table))
  {
    SplitThree(project, dataset, table, '.');
    SplitTwo(dataset, table, '.');
  }

  /** Empty segments are not rejected: `"."` names the table `""` of dataset `""`. */
  lemma ParseAcceptsEmptySegments()
    ensures ParseTableIdentifier(".") == Ok(TableRef(DefaultProject, "", ""))
    ensures ParseTableIdentifier("..") == Ok(TableRef("", "", ""))
  {
    SplitTwo("", "", '.');
    SplitThree("", "", "", '.');
  }

  /** The field's name is the query name or one of its aliases. */
  predicate Hits(name: string, f: Field)
  {
    f.name == name || name in f.aliases
  }

  /** `fields[i]` is the first field in declared order that the name hits. */
  predicate FirstHitAt(name: string, fields: seq<Field>, i: int)
  {
    0 <= i < |fields| && Hits(name, fields[i]) && forall j :: 0 <= j < i ==> !Hits(name, fields[j])
  }

  /** The match a one-pass search reports for a hit on `f`: by name when the
      name is equal, otherwise by alias. */
  function MatchOf(name: string, f: Field): FieldMatch
  {
    FieldMatch(f, if f.name == name then ByName else ByAlias)
  }

  /** The first-match search of one base schema: a single pass over the fields
      in declared order, each field testing its name before its aliases. */
  function FindField(name: string, fields: seq<Field>): (r: Option<FieldMatch>)
    ensures r.None? <==> forall i :: 0 <= i < |fields| ==> !Hits(name, fields[i])
    ensures r.Some? ==> exists i :: FirstHitAt(name, fields, i) && r.value == MatchOf(name, fields[i])
  {
    if fields == [] then None
    else if fields[0].name == name then Some(FieldMatch(fields[0], ByName))
    else if name in fields[0].aliases then Some(FieldMatch(fields[0], ByAlias))
    else
      var r := FindField(name, fields[1..]);
      assert r.Some? ==> exists i :: FirstHitAt(name, fields, i) && r.value == MatchOf(name, fields[i]) by {
        if r.Some? {
          var k :| FirstHitAt(name, fields[1..], k) && r.value == MatchOf(name, fields[1..][k]);
          assert FirstHitAt(name, fields, k + 1);
        }
      }
      r
  }

  /** The search returns exactly the first field the name hits, tagged
      `ByName` when its name is the query name and `ByAlias` otherwise. */
  lemma {:induction false} FindFieldReturnsFirstHit(name: string, fields: seq<Field>, i: int)
    requires FirstHitAt(name, fields, i)
    ensures FindField(name, fields) == Some(MatchOf(name, fields[i]))
  {
    if i > 0 {
      assert !Hits(name, fields[0]);
      assert FirstHitAt(name, fields[1..], i - 1);
      FindFieldReturnsFirstHit(name, fields[1..], i - 1);
    }
  }

  /** No separate "names first" pass: an earlier field that lists the name as
      an alias wins over a later field that carries the name itself. */
  lemma EarlierAliasBeatsLaterName()
    ensures FindField("os_ver", [Field("os_version", "", ["os_ver"]), Field("os_ver", "", [])])
         == Some(FieldMatch(Field("os_version", "", ["os_ver"]), ByAlias))
  {
    FindFieldReturnsFirstHit("os_ver", [Field("os_version", "", ["os_ver"]), Field("os_ver", "", [])], 0);
  }

  /** `find_field_in_base_schema`: the early-return scan over `fields`. */
  method FindFieldInBaseSchema(name: string, schema: Schema) returns (r: Option<FieldMatch>)
    ensures r == FindField(name, schema.fields)
  {
    var i := 0;
    while i < |schema.fields|
      invariant 0 <= i <= |schema.fields|
      invariant forall j :: 0 <= j < i ==> !Hits(name, schema.fields[j])
    {
      var f := schema.fields[i];
      if name == f.name {
        FindFieldReturnsFirstHit(name, schema.fields, i);
        return Some(FieldMatch(f, ByName));
      }
      if name in f.aliases {
        FindFieldReturnsFirstHit(name, schema.fields, i);
        return Some(FieldMatch(f, ByAlias));
      }
      i := i + 1;
    }
    return None;
  }

  /** The search result of one optional schema. */
  function FindIn(name: string, schema: Option<Schema>): Option<FieldMatch>
  {
    if schema.Some? then FindField(name, schema.value.fields) else None
  }

  /** The resolution of one query field name: the dataset schema first, the
      global schema only when the dataset schema gave nothing. */
  function Resolve(name: string, bases: BaseSchemas): (r: Option<Resolution>)
    ensures r.Some? ==> Hits(name, r.value.found.field)
  {
    var fromDataset := FindIn(name, bases.dataset);
    if fromDataset.Some? then Some(Resolution(bases.datasetName + ".yaml", fromDataset.value))
    else
      var fromGlobal := FindIn(name, bases.global);
      if fromGlobal.Some? then Some(Resolution(GlobalLabel, fromGlobal.value)) else None
  }

  /** A hit in the dataset schema decides the resolution, whatever the global
      schema holds; the global schema decides only when the dataset schema has
      no field the name hits; nothing resolves when neither has one. */
  lemma ResolvePrecedence(name: string, bases: BaseSchemas)
    ensures FindIn(name, bases.dataset).Some? ==>
      Resolve(name, bases) == Some(Resolution(bases.datasetName + ".yaml", FindIn(name, bases.dataset).value))
    ensures FindIn(name, bases.dataset).None? && FindIn(name, bases.global).Some? ==>
      Resolve(name, bases) == Some(Resolution(GlobalLabel, FindIn(name, bases.global).value))
    ensures Resolve(name, bases).None? <==>
      (bases.dataset.None? || forall i :: 0 <= i < |bases.dataset.value.fields| ==> !Hits(name, bases.dataset.value.fields[i])) &&
      (bases.global.None? || forall i :: 0 <= i < |bases.global.value.fields| ==> !Hits(name, bases.global.value.fields[i]))
  {
  }

  /** A dataset-schema alias match beats an exact-name match in the global schema. */
  lemma DatasetAliasBeatsGlobalName()
    ensures Resolve("os_ver", BaseSchemas("mobile", Some(Schema([Field("os_version", "OS", ["os_ver"])])),
                                          Some(Schema([Field("os_ver", "Global", [])]))))
         == Some(Resolution("mobile.yaml", FieldMatch(Field("os_version", "OS", ["os_ver"]), ByAlias)))
  {
    var f := Field("os_version", "OS", ["os_ver"]);
    assert FirstHitAt("os_ver", [f], 0) by { assert "os_ver" in f.aliases; }
    FindFieldReturnsFirstHit("os_ver", [f], 0);
    assert f.name != "os_ver";
    assert "mobile" + ".yaml" == "mobile.yaml";
  }

  /** The description as the preview compares it: stripped of surrounding whitespace. */
  function Stripped(description: string): string
  {
    Strip(description, Whitespace)
  }

  /** What the preview learns about one query field: its stripped description,
      its resolution, and the stripped description of the base field it
      resolved to (`""` when unresolved). */
  datatype Outcome = Outcome(field: Field, own: string, resolution: Option<Resolution>, base: string)

  /** The outcome of one query field against the consulted base schemas. */
  function Classify(f: Field, bases: BaseSchemas): Outcome
  {
    var r := Resolve(f.name, bases);
    Outcome(f, Stripped(f.description), r, if r.Some? then Stripped(r.value.found.field.description) else "")
  }

  /** The outcomes of a list of query fields, index by index. */
  function Outcomes(fields: seq<Field>, bases: BaseSchemas): (os: seq<Outcome>)
    ensures |os| == |fields|
    ensures forall i :: 0 <= i < |fields| ==> os[i] == Classify(fields[i], bases)
  {
    seq(|fields|, i requires 0 <= i < |fields| => Classify(fields[i], bases))
  }

  /** The field was found in a base schema. */
  predicate Matched(o: Outcome)
  {
    o.resolution.Some?
  }

  /** A found field whose own non-empty description differs from the base one. */
  predicate Overwrites(o: Outcome)
  {
    o.resolution.Some? && o.own != "" && o.own != o.base
  }

  /** A field found nowhere, with no description of its own. */
  predicate MissesDescription(o: Outcome)
  {
    o.resolution.None? && o.own == ""
  }

  /** A field found through an alias of a base field. */
  predicate AliasMatched(o: Outcome)
  {
    o.resolution.Some? && o.resolution.value.found.kind == ByAlias
  }

  /** The `matched_fields` entry of a found field. */
  function MatchedEntry(o: Outcome): MatchedField
    requires Matched(o)
  {
    var res := o.resolution.value;
    MatchedField(o.field.name, res.source, res.found.kind, res.found.field.name, o.base)
  }

  /** The `overwritten_fields` entry of a found field. */
  function OverwrittenEntry(o: Outcome): OverwrittenField
    requires Matched(o)
  {
    OverwrittenField(o.field.name, o.resolution.value.source, o.own, o.base)
  }

  /** The `alias_recommendations` entry of a found field. */
  function AliasEntry(o: Outcome): AliasRecommendation
    requires Matched(o)
  {
    AliasRecommendation(o.field.name, o.resolution.value.found.field.name)
  }

  /** The `matched_fields` list: one entry per found field, in order. */
  function MatchedFields(os: seq<Outcome>): seq<MatchedField>
  {
    if os == [] then []
    else
      var o := os[|os| - 1];
      MatchedFields(os[..|os| - 1]) + (if Matched(o) then [MatchedEntry(o)] else [])
  }

  /** The `overwritten_fields` list. */
  function OverwrittenFields(os: seq<Outcome>): seq<OverwrittenField>
  {
    if os == [] then []
    else
      var o := os[|os| - 1];
      OverwrittenFields(os[..|os| - 1]) + (if Overwrites(o) then [OverwrittenEntry(o)] else [])
  }

  /** The `missing_desc_fields` list. */
  function MissingDescriptions(os: seq<Outcome>): seq<string>
  {
    if os == [] then []
    else
      var o := os[|os| - 1];
      MissingDescriptions(os[..|os| - 1]) + (if MissesDescription(o) then [o.field.name] else [])
  }

  /** The `alias_recommendations` list. */
  function AliasRecommendations(os: seq<Outcome>): seq<AliasRecommendation>
  {
    if os == [] then []
    else
      var o := os[|os| - 1];
      AliasRecommendations(os[..|os| - 1]) + (if AliasMatched(o) then [AliasEntry(o)] else [])
  }

  /** The report of a list of query fields, classified in declared order. */
  function Reconcile(fields: seq<Field>, bases: BaseSchemas): Report
  {
    var os := Outcomes(fields, bases);
    Report(MatchedFields(os), OverwrittenFields(os), MissingDescriptions(os), AliasRecommendations(os))
  }

  /** The base schemas a preview consults, given the two switches and what
      could be loaded. */
  function Consulted(datasetName: string, useGlobal: bool, useDataset: bool,
                     datasetFile: Option<Schema>, globalFile: Option<Schema>): BaseSchemas
  {
    BaseSchemas(datasetName, if useDataset then datasetFile else None, if useGlobal then globalFile else None)
  }

  /** The lookup of one query field inside `preview_base_schema_matches`: the
      dataset schema when it is in use, then the global schema. */
  method LookUp(name: string, datasetName: string, datasetSchema: Option<Schema>, globalSchema: Option<Schema>)
    returns (r: Option<Resolution>)
    ensures r == Resolve(name, BaseSchemas(datasetName, datasetSchema, globalSchema))
  {
    var found: Option<FieldMatch> := None;
    var source := "";
    if datasetSchema.Some? {
      found := FindFieldInBaseSchema(name, datasetSchema.value);
      if found.Some? {
        source := datasetName + ".yaml";
      }
    }
    if found.None? && globalSchema.Some? {
      found := FindFieldInBaseSchema(name, globalSchema.value);
      if found.Some? {
        source := GlobalLabel;
      }
    }
    r := if found.Some? then Some(Resolution(source, found.value)) else None;
  }

  /** Classifying one more query field appends its entries to the four lists. */
  lemma ReconcileStep(os: seq<Outcome>, i: int)
    requires 0 <= i < |os|
    ensures MatchedFields(os[..i + 1]) == MatchedFields(os[..i]) + (if Matched(os[i]) then [MatchedEntry(os[i])] else [])
    ensures OverwrittenFields(os[..i + 1]) == OverwrittenFields(os[..i]) + (if Overwrites(os[i]) then [OverwrittenEntry(os[i])] else [])
    ensures MissingDescriptions(os[..i + 1]) == MissingDescriptions(os[..i]) + (if MissesDescription(os[i]) then [os[i].field.name] else [])
    ensures AliasRecommendations(os[..i + 1]) == AliasRecommendations(os[..i]) + (if AliasMatched(os[i]) then [AliasEntry(os[i])] else [])
  {
    assert os[..i + 1][..i] == os[..i];
  }

  /** `preview_base_schema_matches`: one pass over the query fields, appending
      to the four result lists. */
  method PreviewBaseSchemaMatches(query: Schema, datasetName: string, useGlobal: bool, useDataset: bool,
                                  datasetFile: Option<Schema>, globalFile: Option<Schema>)
    returns (report: Report)
    ensures report == Reconcile(query.fields, Consulted(datasetName, useGlobal, useDataset, datasetFile, globalFile))
  {
    ghost var os := Outcomes(query.fields, Consulted(datasetName, useGlobal, useDataset, datasetFile, globalFile));
    var datasetSchema := if useDataset then datasetFile else None;
    var globalSchema := if useGlobal then globalFile else None;
    var matched: seq<MatchedField> := [];
    var overwritten: seq<OverwrittenField> := [];
    var missing: seq<string> := [];
    var aliases: seq<AliasRecommendation> := [];
    var i := 0;
    while i < |query.fields|
      invariant 0 <= i <= |query.fields|
      invariant matched == MatchedFields(os[..i])
      invariant overwritten == OverwrittenFields(os[..i])
      invariant missing == MissingDescriptions(os[..i])
      invariant aliases == AliasRecommendations(os[..i])
    {
      var field := query.fields[i];
      var fieldDesc := Strip(field.description, Whitespace);
      var resolved := LookUp(field.name, datasetName, datasetSchema, globalSchema);
      assert os[i].field == field && os[i].own == fieldDesc && os[i].resolution == resolved;
      ReconcileStep(os, i);
      if resolved.Some? {
        var source := resolved.value.source;
        var baseName := resolved.value.found.field.name;
        var baseDesc := Strip(resolved.value.found.field.description, Whitespace);
        assert os[i].base == baseDesc;
        matched := matched + [MatchedField(field.name, source, resolved.value.found.kind, baseName, baseDesc)];
        if fieldDesc != "" && fieldDesc != baseDesc {
          overwritten := overwritten + [OverwrittenField(field.name, source, fieldDesc, baseDesc)];
        }
        if resolved.value.found.kind == ByAlias {
          aliases := aliases + [AliasRecommendation(field.name, baseName)];
        }
      } else {
        if fieldDesc == "" {
          missing := missing + [field.name];
        }
      }
      i := i + 1;
    }
    assert os[..i] == os;
    report := Report(matched, overwritten, missing, aliases);
  }

  /** `matched_fields` holds exactly the entries of the found query fields. */
  lemma {:induction false} MatchedFieldsExactly(os: seq<Outcome>)
    ensures forall e :: e in MatchedFields(os) ==> exists i :: 0 <= i < |os| && Matched(os[i]) && e == MatchedEntry(os[i])
    ensures forall i :: 0 <= i < |os| && Matched(os[i]) ==> MatchedEntry(os[i]) in MatchedFields(os)
  {
    if os != [] {
      MatchedFieldsExactly(os[..|os| - 1]);
    }
  }

  /** `overwritten_fields` holds exactly the found query fields whose own
      stripped description is non-empty and differs from the base one. */
  lemma {:induction false} OverwrittenFieldsExactly(os: seq<Outcome>)
    ensures forall e :: e in OverwrittenFields(os) ==> exists i :: 0 <= i < |os| && Overwrites(os[i]) && e == OverwrittenEntry(os[i])
    ensures forall i :: 0 <= i < |os| && Overwrites(os[i]) ==> OverwrittenEntry(os[i]) in OverwrittenFields(os)
  {
    if os != [] {
      OverwrittenFieldsExactly(os[..|os| - 1]);
    }
  }

  /** `missing_desc_fields` holds exactly the names of the query fields found
      nowhere whose stripped description is empty. */
  lemma {:induction false} MissingDescriptionsExactly(os: seq<Outcome>)
    ensures forall m :: m in MissingDescriptions(os) ==> exists i :: 0 <= i < |os| && MissesDescription(os[i]) && m == os[i].field.name
    ensures forall i :: 0 <= i < |os| && MissesDescription(os[i]) ==> os[i].field.name in MissingDescriptions(os)
  {
    if os != [] {
      MissingDescriptionsExactly(os[..|os| - 1]);
    }
  }

  /** `alias_recommendations` holds `(field name, canonical name)` exactly for
      the alias matches. */
  lemma {:induction false} AliasRecommendationsExactly(os: seq<Outcome>)
    ensures forall a :: a in AliasRecommendations(os) ==> exists i :: 0 <= i < |os| && AliasMatched(os[i]) && a == AliasEntry(os[i])
    ensures forall i :: 0 <= i < |os| && AliasMatched(os[i]) ==> AliasEntry(os[i]) in AliasRecommendations(os)
  {
    if os != [] {
      AliasRecommendationsExactly(os[..|os| - 1]);
    }
  }

  /** Indices of the query fields that were found. */
  function MatchedIndices(os: seq<Outcome>): set<int>
  {
    set i | 0 <= i < |os| && Matched(os[i])
  }

  /** Every found query field contributes exactly one `matched_fields` entry. */
  lemma {:induction false} MatchedFieldsOnePerField(os: seq<Outcome>)
    ensures |MatchedFields(os)| == |MatchedIndices(os)|
  {
    if os != [] {
      var n := |os| - 1;
      MatchedFieldsOnePerField(os[..n]);
      var all, prev := MatchedIndices(os), MatchedIndices(os[..n]);
      assert n !in prev;
      forall i
        ensures i in all <==> i in prev || (i == n && Matched(os[n]))
      {
        if 0 <= i < n { assert os[..n][i] == os[i]; }
      }
      if Matched(os[n]) {
        assert all == prev + {n};
      } else {
        assert all == prev;
      }
    }
  }

  /** `x` occurs in `s` before `y`. */
  predicate InOrder<T(==)>(s: seq<T>, x: T, y: T)
  {
    exists p, q :: 0 <= p < q < |s| && s[p] == x && s[q] == y
  }

  /** The `matched_fields` entries keep the query fields' order. */
  lemma {:induction false} MatchedFieldsInQueryOrder(os: seq<Outcome>)
    ensures forall i, j :: 0 <= i < j < |os| && Matched(os[i]) && Matched(os[j]) ==>
      InOrder(MatchedFields(os), MatchedEntry(os[i]), MatchedEntry(os[j]))
  {
    if os != [] {
      var n := |os| - 1;
      var init := os[..n];
      MatchedFieldsInQueryOrder(init);
      MatchedFieldsExactly(init);
      var prev, cur := MatchedFields(init), MatchedFields(os);
      assert prev == cur[..|prev|];
      forall i, j | 0 <= i < j < |os| && Matched(os[i]) && Matched(os[j])
        ensures InOrder(cur, MatchedEntry(os[i]), MatchedEntry(os[j]))
      {
        var ei, ej := MatchedEntry(os[i]), MatchedEntry(os[j]);
        assert init[i] == os[i];
        if j < n {
          assert init[j] == os[j];
          assert InOrder(prev, ei, ej);
          var p, q :| 0 <= p < q < |prev| && prev[p] == ei && prev[q] == ej;
          assert cur[p] == ei && cur[q] == ej;
        } else {
          assert ei in prev;
          var p :| 0 <= p < |prev| && prev[p] == ei;
          assert cur[p] == ei;
          assert cur[|prev|] == ej;
        }
      }
    }
  }

  /** A field listed as missing a description has no matched entry under its
      name: resolution depends only on the name. */
  lemma MissingNeverMatched(fields: seq<Field>, bases: BaseSchemas)
    ensures forall m, e :: m in Reconcile(fields, bases).missingDescription && e in Reconcile(fields, bases).matched ==>
      e.fieldName != m
  {
    var os := Outcomes(fields, bases);
    MatchedFieldsExactly(os);
    MissingDescriptionsExactly(os);
  }

  /** Every overwrite entry and every alias recommendation belongs to a matched entry. */
  lemma OverwritesAndAliasesAreMatched(os: seq<Outcome>)
    ensures forall o :: o in OverwrittenFields(os) ==>
      exists e :: e in MatchedFields(os) && e.fieldName == o.fieldName && e.source == o.source && e.baseDescription == o.newDescription
    ensures forall a :: a in AliasRecommendations(os) ==>
      exists e :: e in MatchedFields(os) && e.fieldName == a.alias && e.kind == ByAlias && e.baseName == a.canonicalName
  {
    MatchedFieldsExactly(os);
    OverwrittenFieldsExactly(os);
    AliasRecommendationsExactly(os);
    forall o | o in OverwrittenFields(os)
      ensures exists e :: e in MatchedFields(os) && e.fieldName == o.fieldName && e.source == o.source && e.baseDescription == o.newDescription
    {
      var i :| 0 <= i < |os| && Overwrites(os[i]) && o == OverwrittenEntry(os[i]);
      assert MatchedEntry(os[i]) in MatchedFields(os);
    }
    forall a | a in AliasRecommendations(os)
      ensures exists e :: e in MatchedFields(os) && e.fieldName == a.alias && e.kind == ByAlias && e.baseName == a.canonicalName
    {
      var i :| 0 <= i < |os| && AliasMatched(os[i]) && a == AliasEntry(os[i]);
      assert MatchedEntry(os[i]) in MatchedFields(os);
    }
  }

  /** A description that differs from the base one only by surrounding
      whitespace is not reported as overwritten; a non-empty description
      against an empty base description is. */
  lemma OverwriteIgnoresSurroundingWhitespace(f: Field, bases: BaseSchemas, w1: string, w2: string)
    requires AllIn(w1, Whitespace) && AllIn(w2, Whitespace)
    ensures var o := Classify(f, bases);
      Matched(o) && f.description == w1 + o.resolution.value.found.field.description + w2 ==> !Overwrites(o)
    ensures var o := Classify(f, bases);
      Matched(o) && Stripped(f.description) != "" && o.resolution.value.found.field.description == "" ==> Overwrites(o)
  {
    var o := Classify(f, bases);
    if Matched(o) {
      StripIgnoresPadding(w1, o.resolution.value.found.field.description, w2, Whitespace);
    }
  }

  /** A description with no whitespace at either end is compared as written. */
  predicate Trimmed(d: string)
  {
    d == [] || (d[0] !in Whitespace && d[|d| - 1] !in Whitespace)
  }

  /** The report of a single found query field whose descriptions carry no
      surrounding whitespace. */
  lemma ReconcileOneTrimmed(f: Field, bases: BaseSchemas, res: Resolution)
    requires Resolve(f.name, bases) == Some(res)
    requires Trimmed(f.description) && Trimmed(res.found.field.description)
    ensures var base := res.found.field.description;
      Reconcile([f], bases) == Report(
        [MatchedField(f.name, res.source, res.found.kind, res.found.field.name, base)],
        if f.description != "" && f.description != base then [OverwrittenField(f.name, res.source, f.description, base)] else [],
        [],
        if res.found.kind == ByAlias then [AliasRecommendation(f.name, res.found.field.name)] else [])
  {
    StripUnpadded(f.description, Whitespace);
    StripUnpadded(res.found.field.description, Whitespace);
    var o := Classify(f, bases);
    assert o == Outcome(f, f.description, Some(res), res.found.field.description);
    var os := Outcomes([f], bases);
    assert os == [o];
    assert os[..0] == [];
    assert MatchedFields(os) == [MatchedEntry(o)];
    assert OverwrittenFields(os) == if Overwrites(o) then [OverwrittenEntry(o)] else [];
    assert MissingDescriptions(os) == [];
    assert AliasRecommendations(os) == if AliasMatched(o) then [AliasEntry(o)] else [];
  }
}
