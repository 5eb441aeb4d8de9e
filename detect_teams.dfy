/** Team detection: reads the GitHub teams named as owners in `metadata.yaml`
    files, relates them to the datasets those files sit in, and recommends or
    searches teams by a case-insensitive keyword. */
module DetectTeams {
  import opened Wrappers
  import opened Text
  import opened Sorting

  /** A loaded YAML value (mapping keys are strings). */
  datatype Yaml =
    | YNull
    | YBool(b: bool)
    | YInt(i: int)
    | YStr(s: string)
    | YList(items: seq<Yaml>)
    | YMap(entries: map<string, Yaml>)

  /** One `metadata.yaml` file: its path relative to the sql directory, as
      segments, and its loaded content (`None` for a file that could not be
      read or parsed). */
  datatype MetadataFile = MetadataFile(path: seq<string>, metadata: Option<Yaml>)

  /** An owner that names a GitHub team: a string `org/team` that is not an
      e-mail address. */
  predicate IsTeam(owner: Yaml)
  {
    owner.YStr? && '/' in owner.s && '@' !in owner.s
  }

  /** The `owners` list of the metadata, when there is one. Content that is
      absent, empty, not a mapping, without `owners`, or whose `owners` is not
      a list has none: a non-mapping either fails the `owners` test or makes
      the lookup fail, and both give no teams. */
  function OwnersOf(metadata: Option<Yaml>): Option<seq<Yaml>>
  {
    if metadata.Some? && metadata.value.YMap? && "owners" in metadata.value.entries
       && metadata.value.entries["owners"].YList?
    then Some(metadata.value.entries["owners"].items)
    else None
  }

  /** The team owners, in order. */
  function Teams(owners: seq<Yaml>): seq<string>
  {
    if owners == [] then []
    else
      var last := owners[|owners| - 1];
      Teams(owners[..|owners| - 1]) + (if IsTeam(last) then [last.s] else [])
  }

  /** The teams of one file's metadata. */
  function TeamsOf(metadata: Option<Yaml>): seq<string>
  {
    if OwnersOf(metadata).Some? then Teams(OwnersOf(metadata).value) else []
  }

  /** `extract_teams_from_metadata`, over already-loaded content. */
  method ExtractTeamsFromMetadata(metadata: Option<Yaml>) returns (teams: seq<string>)
    ensures teams == TeamsOf(metadata)
  {
    teams := [];
    if metadata.None? || !metadata.value.YMap? || metadata.value.entries == map[] {
      return;
    }
    if "owners" !in metadata.value.entries {
      return;
    }
    var owners := metadata.value.entries["owners"];
    if !owners.YList? {
      return;
    }
    var i := 0;
    while i < |owners.items|
      invariant 0 <= i <= |owners.items|
      invariant teams == Teams(owners.items[..i])
    {
      var owner := owners.items[i];
      if owner.YStr? && '/' in owner.s && '@' !in owner.s {
        teams := teams + [owner.s];
      }
      assert owners.items[..i + 1][..i] == owners.items[..i];
      i := i + 1;
    }
    assert owners.items[..i] == owners.items;
  }

  /** A team is extracted exactly when a team-shaped string owner names it. */
  lemma {:induction false} TeamsExactly(owners: seq<Yaml>, t: string)
    ensures t in Teams(owners) <==> YStr(t) in owners && '/' in t && '@' !in t
    decreases |owners|
  {
    if owners != [] {
      var init := owners[..|owners| - 1];
      TeamsExactly(init, t);
      assert owners == init + [owners[|owners| - 1]];
    }
  }

  /** Extraction keeps the owners' order: it distributes over concatenation. */
  lemma {:induction false} TeamsAppend(a: seq<Yaml>, b: seq<Yaml>)
    ensures Teams(a + b) == Teams(a) + Teams(b)
    decreases |b|
  {
    if b == [] {
      assert a + b == a;
    } else {
      assert (a + b)[..|a + b| - 1] == a + b[..|b| - 1];
      TeamsAppend(a, b[..|b| - 1]);
    }
  }

  /** Metadata without an `owners` list gives no teams. */
  lemma NoOwnersNoTeams(metadata: Option<Yaml>)
    requires metadata.None? || !metadata.value.YMap? || "owners" !in metadata.value.entries
          || !metadata.value.entries["owners"].YList?
    ensures TeamsOf(metadata) == []
  {
  }

  /** `get_dataset_from_path`: the second segment of a path of at least three
      segments (`project/dataset/table/metadata.yaml`). */
  function DatasetFromPath(path: seq<string>): (r: Option<string>)
    ensures r.Some? <==> |path| >= 3
    ensures r.Some? ==> r.value == path[1]
  {
    if |path| >= 3 then Some(path[1]) else None
  }

  /** The dataset a file contributes under, when there is one and it is not
      empty (an empty name counts as no dataset). */
  predicate HasDataset(f: MetadataFile)
  {
    DatasetFromPath(f.path).Some? && DatasetFromPath(f.path).value != ""
  }

  /** The (team, dataset) pairs of one file. */
  function FilePairs(f: MetadataFile): set<(string, string)>
  {
    if HasDataset(f) then
      var d := DatasetFromPath(f.path).value;
      set t | t in TeamsOf(f.metadata) :: (t, d)
    else {}
  }

  /** The union of a sequence of sets. */
  function Union(ss: seq<set<(string, string)>>): set<(string, string)>
  {
    if ss == [] then {} else Union(ss[..|ss| - 1]) + ss[|ss| - 1]
  }

  /** A pair is in the union exactly when it is in one of the sets. */
  lemma {:induction false} UnionExactly(ss: seq<set<(string, string)>>, p: (string, string))
    ensures p in Union(ss) <==> exists i :: 0 <= i < |ss| && p in ss[i]
    decreases |ss|
  {
    if ss != [] {
      var n := |ss| - 1;
      var init := ss[..n];
      UnionExactly(init, p);
      if p in Union(init) {
        var i :| 0 <= i < n && p in init[i];
        assert init[i] == ss[i];
      }
      if exists i :: 0 <= i < |ss| && p in ss[i] {
        var i :| 0 <= i < |ss| && p in ss[i];
        if i < n {
          assert init[i] == ss[i];
        }
      }
    }
  }

  /** The pairs of each file, in order. */
  function PairSets(files: seq<MetadataFile>): seq<set<(string, string)>>
  {
    seq(|files|, i requires 0 <= i < |files| => FilePairs(files[i]))
  }

  /** The (team, dataset) pairs of all files. */
  function Pairs(files: seq<MetadataFile>): set<(string, string)>
  {
    Union(PairSets(files))
  }

  /** The file has a dataset `d` and names the team `t`. */
  predicate Relates(f: MetadataFile, t: string, d: string)
  {
    HasDataset(f) && d == f.path[1] && t in TeamsOf(f.metadata)
  }

  /** A file's pairs are the teams it names with its dataset. */
  lemma FilePairsExactly(f: MetadataFile, t: string, d: string)
    ensures (t, d) in FilePairs(f) <==> Relates(f, t, d)
  {
  }

  /** A pair is present exactly when some file with a dataset names the team. */
  lemma PairsExactly(files: seq<MetadataFile>, t: string, d: string)
    ensures (t, d) in Pairs(files) <==> exists i :: 0 <= i < |files| && Relates(files[i], t, d)
  {
    var ss := PairSets(files);
    UnionExactly(ss, (t, d));
    if (t, d) in Pairs(files) {
      var i :| 0 <= i < |ss| && (t, d) in ss[i];
      FilePairsExactly(files[i], t, d);
    }
    if exists i :: 0 <= i < |files| && Relates(files[i], t, d) {
      var i :| 0 <= i < |files| && Relates(files[i], t, d);
      FilePairsExactly(files[i], t, d);
      assert (t, d) in ss[i];
    }
  }

  /** `m` maps each key to a non-empty set, and holds exactly the pairs `pairs`
      (key first). */
  predicate Holds(m: map<string, set<string>>, pairs: set<(string, string)>)
  {
    (forall a :: a in m ==> m[a] != {}) &&
    (forall a, b :: a in m && b in m[a] ==> (a, b) in pairs) &&
    (forall p :: p in pairs ==> p.0 in m && p.1 in m[p.0])
  }

  /** The pairs with their components swapped. */
  function Flip(pairs: set<(string, string)>): set<(string, string)>
  {
    set p | p in pairs :: (p.1, p.0)
  }

  /** `m[a].add(b)` on a map of sets whose missing keys read as empty. */
  function AddTo(m: map<string, set<string>>, a: string, b: string): map<string, set<string>>
  {
    m[a := (if a in m then m[a] else {}) + {b}]
  }

  /** Adding a pair to the map adds it to the pairs it holds. */
  lemma AddToHolds(m: map<string, set<string>>, pairs: set<(string, string)>, a: string, b: string)
    requires Holds(m, pairs)
    ensures Holds(AddTo(m, a, b), pairs + {(a, b)})
  {
    var m' := AddTo(m, a, b);
    forall x, y | x in m' && y in m'[x] ensures (x, y) in pairs + {(a, b)} {
      if x != a || y != b {
        assert x in m && y in m[x];
      }
    }
  }

  /** Adding a pair and adding its flip keep the two sets each other's flip. */
  lemma FlipAdd(pairs: set<(string, string)>, a: string, b: string)
    ensures Flip(pairs + {(a, b)}) == Flip(pairs) + {(b, a)}
  {
  }

  /** The two maps hold `pairs`, team first and dataset first. */
  predicate Collected(teamsToDatasets: map<string, set<string>>, datasetsToTeams: map<string, set<string>>,
                      pairs: set<(string, string)>)
  {
    Holds(teamsToDatasets, pairs) && Holds(datasetsToTeams, Flip(pairs))
  }

  /** Recording one (team, dataset) pair in both maps records it in the pairs. */
  lemma CollectPair(teamsToDatasets: map<string, set<string>>, datasetsToTeams: map<string, set<string>>,
                    pairs: set<(string, string)>, team: string, dataset: string)
    requires Collected(teamsToDatasets, datasetsToTeams, pairs)
    ensures Collected(AddTo(teamsToDatasets, team, dataset), AddTo(datasetsToTeams, dataset, team), pairs + {(team, dataset)})
  {
    AddToHolds(teamsToDatasets, pairs, team, dataset);
    AddToHolds(datasetsToTeams, Flip(pairs), dataset, team);
    FlipAdd(pairs, team, dataset);
  }

  /** `collect_all_teams`, over the already-found files: every team of a file
      with a dataset is related to that dataset in both directions. */
  method CollectAllTeams(files: seq<MetadataFile>)
    returns (teamsToDatasets: map<string, set<string>>, datasetsToTeams: map<string, set<string>>)
    ensures Holds(teamsToDatasets, Pairs(files))
    ensures Holds(datasetsToTeams, Flip(Pairs(files)))
    ensures Inverse(teamsToDatasets, datasetsToTeams)
  {
    teamsToDatasets := map[];
    datasetsToTeams := map[];
    var i := 0;
    while i < |files|
      invariant 0 <= i <= |files|
      invariant Collected(teamsToDatasets, datasetsToTeams, Pairs(files[..i]))
    {
      var teams := ExtractTeamsFromMetadata(files[i].metadata);
      var dataset := DatasetFromPath(files[i].path);
      teamsToDatasets, datasetsToTeams := RecordTeams(teamsToDatasets, datasetsToTeams, teams, dataset, Pairs(files[..i]));
      FilePairsAll(files[i], teams);
      PairsStep(files, i);
      i := i + 1;
    }
    assert files[..i] == files;
    CollectedMapsAreInverse(files, teamsToDatasets, datasetsToTeams);
  }

  /** The inner loop of `collect_all_teams`: relates each of a file's teams
      to its dataset, when the dataset is there and not empty. */
  method RecordTeams(teamsToDatasets: map<string, set<string>>, datasetsToTeams: map<string, set<string>>,
                     teams: seq<string>, dataset: Option<string>, ghost before: set<(string, string)>)
    returns (teamsToDatasets': map<string, set<string>>, datasetsToTeams': map<string, set<string>>)
    requires Collected(teamsToDatasets, datasetsToTeams, before)
    ensures Collected(teamsToDatasets', datasetsToTeams', before + FilePairsUpTo(teams, dataset, |teams|))
  {
    teamsToDatasets', datasetsToTeams' := teamsToDatasets, datasetsToTeams;
    ghost var pairs := before;
    assert FilePairsUpTo(teams, dataset, 0) == {};
    var j := 0;
    while j < |teams|
      invariant 0 <= j <= |teams|
      invariant pairs == before + FilePairsUpTo(teams, dataset, j)
      invariant Collected(teamsToDatasets', datasetsToTeams', pairs)
    {
      var team := teams[j];
      FilePairsStep(teams, dataset, j);
      if dataset.Some? && dataset.value != "" {
        CollectPair(teamsToDatasets', datasetsToTeams', pairs, team, dataset.value);
        teamsToDatasets' := AddTo(teamsToDatasets', team, dataset.value);
        datasetsToTeams' := AddTo(datasetsToTeams', dataset.value, team);
        pairs := pairs + {(team, dataset.value)};
      }
      j := j + 1;
    }
  }

  lemma PairsStep(files: seq<MetadataFile>, i: nat)
    requires i < |files|
    ensures Pairs(files[..i + 1]) == Pairs(files[..i]) + FilePairs(files[i])
  {
    var ss := PairSets(files[..i + 1]);
    assert ss[..i] == PairSets(files[..i]);
    assert ss[i] == FilePairs(files[i]);
  }

  /** The pairs contributed by the first `j` teams of a file. */
  function FilePairsUpTo(teams: seq<string>, dataset: Option<string>, j: nat): set<(string, string)>
    requires j <= |teams|
  {
    if dataset.Some? && dataset.value != "" then set t | t in teams[..j] :: (t, dataset.value) else {}
  }

  lemma FilePairsStep(teams: seq<string>, dataset: Option<string>, j: nat)
    requires j < |teams|
    ensures FilePairsUpTo(teams, dataset, j + 1)
         == FilePairsUpTo(teams, dataset, j) + (if dataset.Some? && dataset.value != "" then {(teams[j], dataset.value)} else {})
  {
    assert teams[..j + 1] == teams[..j] + [teams[j]];
  }

  lemma FilePairsAll(f: MetadataFile, teams: seq<string>)
    requires teams == TeamsOf(f.metadata)
    ensures FilePairsUpTo(teams, DatasetFromPath(f.path), |teams|) == FilePairs(f)
  {
    assert teams[..|teams|] == teams;
  }

  /** The two maps are each other's inverse: `d` is among the datasets of `t`
      exactly when `t` is among the teams of `d`. */
  ghost predicate Inverse(teamsToDatasets: map<string, set<string>>, datasetsToTeams: map<string, set<string>>)
  {
    forall t, d :: (t in teamsToDatasets && d in teamsToDatasets[t]) <==> (d in datasetsToTeams && t in datasetsToTeams[d])
  }

  /** Maps that hold the same pairs in opposite directions are each other's inverse. */
  lemma CollectedMapsAreInverse(files: seq<MetadataFile>,
                                teamsToDatasets: map<string, set<string>>, datasetsToTeams: map<string, set<string>>)
    requires Holds(teamsToDatasets, Pairs(files))
    requires Holds(datasetsToTeams, Flip(Pairs(files)))
    ensures Inverse(teamsToDatasets, datasetsToTeams)
  {
    forall t, d ensures (t in teamsToDatasets && d in teamsToDatasets[t]) <==> (d in datasetsToTeams && t in datasetsToTeams[d]) {
      if t in teamsToDatasets && d in teamsToDatasets[t] {
        assert (d, t) in Flip(Pairs(files));
      }
      if d in datasetsToTeams && t in datasetsToTeams[d] {
        var p :| p in Pairs(files) && (p.1, p.0) == (d, t);
      }
    }
  }

  /** A team is a key of the collected map only through a file that has a
      dataset: teams of files without one appear in neither map. */
  lemma CollectedTeamsHaveDatasets(files: seq<MetadataFile>, teamsToDatasets: map<string, set<string>>, t: string)
    requires Holds(teamsToDatasets, Pairs(files))
    requires t in teamsToDatasets
    ensures exists i :: 0 <= i < |files| && HasDataset(files[i]) && t in TeamsOf(files[i].metadata)
  {
    var d :| d in teamsToDatasets[t];
    PairsExactly(files, t, d);
    var i :| 0 <= i < |files| && Relates(files[i], t, d);
  }

  /** What a recommendation shows: the teams of the datasets whose name
      matches, or, when no dataset matches, the teams whose name does. */
  datatype Recommendation = DatasetMatches(teams: seq<string>) | TeamNameMatches(teams: seq<string>)

  /** The datasets whose name contains the query, ignoring case. */
  function MatchingDatasets(query: string, datasetsToTeams: map<string, set<string>>): set<string>
  {
    set d | d in datasetsToTeams && ContainsIgnoringCase(d, query)
  }

  /** `recommend_teams_for_dataset`: the sorted teams of the matching datasets,
      falling back to the sorted teams whose own name matches. */
  function RecommendTeamsForDataset(query: string, teamsToDatasets: map<string, set<string>>,
                                    datasetsToTeams: map<string, set<string>>): (r: Recommendation)
    ensures r.DatasetMatches? <==> exists d :: d in datasetsToTeams && ContainsIgnoringCase(d, query)
    ensures Ascending(r.teams)
    ensures r.DatasetMatches? ==> forall t :: t in r.teams <==>
      exists d :: d in datasetsToTeams && ContainsIgnoringCase(d, query) && t in datasetsToTeams[d]
    ensures r.TeamNameMatches? ==> forall t :: t in r.teams <==> t in teamsToDatasets && ContainsIgnoringCase(t, query)
  {
    var matching := MatchingDatasets(query, datasetsToTeams);
    if matching != {} then
      var d :| d in matching;
      DatasetMatches(SortSet(set d, t | d in matching && t in datasetsToTeams[d] :: t))
    else
      assert forall d :: d in datasetsToTeams && ContainsIgnoringCase(d, query) ==> d in matching;
      TeamNameMatches(SearchTeams(query, teamsToDatasets))
  }

  /** `search_teams`: the sorted teams whose name contains the term, ignoring case. */
  function SearchTeams(term: string, teamsToDatasets: map<string, set<string>>): (r: seq<string>)
    ensures Ascending(r)
    ensures forall t :: t in r <==> t in teamsToDatasets && ContainsIgnoringCase(t, term)
  {
    SortSet(set t | t in teamsToDatasets && ContainsIgnoringCase(t, term))
  }

  /** With no matching dataset a recommendation is a team search. */
  lemma RecommendFallsBackToSearch(query: string, teamsToDatasets: map<string, set<string>>,
                                   datasetsToTeams: map<string, set<string>>)
    requires forall d :: d in datasetsToTeams ==> !ContainsIgnoringCase(d, query)
    ensures RecommendTeamsForDataset(query, teamsToDatasets, datasetsToTeams)
         == TeamNameMatches(SearchTeams(query, teamsToDatasets))
  {
  }
}
