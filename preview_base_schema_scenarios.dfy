/** Worked previews of single query fields against small base schemas. */
module PreviewBaseSchemaScenarios {
  import opened Wrappers
  import opened PreviewBaseSchema

  /** A query field without a description, and a global schema defining it. */
  const ClientIdQuery := Field("client_id", "", [])
  const ClientIdBase := Field("client_id", "Unique client identifier", [])
  const ClientIdBases := BaseSchemas("telemetry_derived", Some(Schema([])), Some(Schema([ClientIdBase])))

  /** A query field named after an alias, and a global schema defining it. */
  const OsVerQuery := Field("os_ver", "OS version", [])
  const OsVersionBase := Field("os_version", "Operating system version string", ["os_ver"])
  const OsVersionBases := BaseSchemas("telemetry_derived", None, Some(Schema([OsVersionBase])))

  /** `client_id` misses the empty dataset schema and hits the global one by name. */
  lemma ClientIdResolvesGlobally()
    ensures Resolve(ClientIdQuery.name, ClientIdBases) == Some(Resolution(GlobalLabel, FieldMatch(ClientIdBase, ByName)))
  {
    assert FirstHitAt(ClientIdQuery.name, [ClientIdBase], 0);
    FindFieldReturnsFirstHit(ClientIdQuery.name, [ClientIdBase], 0);
  }

  /** `os_ver` hits the global `os_version` through its alias. */
  lemma OsVerResolvesByAlias()
    ensures Resolve(OsVerQuery.name, OsVersionBases) == Some(Resolution(GlobalLabel, FieldMatch(OsVersionBase, ByAlias)))
  {
    assert FirstHitAt(OsVerQuery.name, [OsVersionBase], 0) by { assert OsVerQuery.name in OsVersionBase.aliases; }
    FindFieldReturnsFirstHit(OsVerQuery.name, [OsVersionBase], 0);
    assert OsVersionBase.name != OsVerQuery.name;
  }

  /** A field found only in the global schema, with no description of its own:
      matched via global, neither missing a description nor overwritten. */
  lemma GlobalMatchWithoutOwnDescription()
    ensures Reconcile([ClientIdQuery], ClientIdBases)
         == Report([MatchedField("client_id", GlobalLabel, ByName, "client_id", "Unique client identifier")], [], [], [])
  {
    ClientIdResolvesGlobally();
    ReconcileOneTrimmed(ClientIdQuery, ClientIdBases, Resolution(GlobalLabel, FieldMatch(ClientIdBase, ByName)));
  }

  /** A field found by alias in the global schema with a different description:
      matched by alias, reported as overwritten, and recommended for renaming. */
  lemma GlobalAliasMatchWithOwnDescription()
    ensures Reconcile([OsVerQuery], OsVersionBases)
         == Report([MatchedField("os_ver", GlobalLabel, ByAlias, "os_version", "Operating system version string")],
                   [OverwrittenField("os_ver", GlobalLabel, "OS version", "Operating system version string")],
                   [],
                   [AliasRecommendation("os_ver", "os_version")])
  {
    OsVerResolvesByAlias();
    assert |OsVerQuery.description| != |OsVersionBase.description|;
    ReconcileOneTrimmed(OsVerQuery, OsVersionBases, Resolution(GlobalLabel, FieldMatch(OsVersionBase, ByAlias)));
  }
}
