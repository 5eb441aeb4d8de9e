/** Collection extraction: reads the collections declared in `bigconfig.yml`
    files and summarises them per collection name: how many tables use it,
    which datasets they sit in, and which notification channels it uses. */
module ExtractCollections {
  import opened Wrappers
  import opened Text
  import opened Sorting

  /** A notification channel: a mapping that may name a Slack channel and an
      e-mail address, or any other value, which is ignored. */
  datatype Channel = ChannelMap(slack: Option<string>, email: Option<string>) | OtherChannel

  /** A suite's collection: its name, absent or empty when not given, and its
      notification channels (none when not given). */
  datatype Collection = Collection(name: Option<string>, notificationChannels: seq<Channel>)

  /** A deployment suite; `collection` is absent when missing or empty. */
  datatype Suite = Suite(collection: Option<Collection>)

  /** A loaded, non-empty `bigconfig.yml`; a missing deployment list is empty. */
  datatype Config = Config(tagDeployments: seq<Suite>, tableDeployments: seq<Suite>)

  /** One extracted collection, with the `project/dataset/table` path of the
      file it came from. */
  datatype CollectionRecord = CollectionRecord(name: Option<string>, notificationChannels: seq<Channel>, path: string)

  /** The records of the suites that have a collection, in order. */
  function RecordsOf(suites: seq<Suite>, path: string): seq<CollectionRecord>
  {
    if suites == [] then []
    else
      var last := suites[|suites| - 1];
      RecordsOf(suites[..|suites| - 1], path) +
        if last.collection.Some? then
          [CollectionRecord(last.collection.value.name, last.collection.value.notificationChannels, path)]
        else []
  }

  /** `extract_collections_from_bigconfig`, over the loaded content (`None`
      for an empty file): the tag deployments' collections, then the table
      deployments'. */
  method ExtractCollectionsFromBigconfig(config: Option<Config>, path: string) returns (collections: seq<CollectionRecord>)
    ensures collections == if config.None? then []
                           else RecordsOf(config.value.tagDeployments, path) + RecordsOf(config.value.tableDeployments, path)
  {
    if config.None? {
      return [];
    }
    collections := [];
    var suites := config.value.tagDeployments;
    var i := 0;
    while i < |suites|
      invariant 0 <= i <= |suites|
      invariant collections == RecordsOf(suites[..i], path)
    {
      var collection := suites[i].collection;
      if collection.Some? {
        collections := collections + [CollectionRecord(collection.value.name, collection.value.notificationChannels, path)];
      }
      assert suites[..i + 1][..i] == suites[..i];
      i := i + 1;
    }
    assert suites[..i] == suites;
    ghost var fromTags := collections;
    suites := config.value.tableDeployments;
    i := 0;
    while i < |suites|
      invariant 0 <= i <= |suites|
      invariant collections == fromTags + RecordsOf(suites[..i], path)
    {
      var collection := suites[i].collection;
      if collection.Some? {
        collections := collections + [CollectionRecord(collection.value.name, collection.value.notificationChannels, path)];
      }
      assert suites[..i + 1][..i] == suites[..i];
      i := i + 1;
    }
    assert suites[..i] == suites;
  }

  /** Exactly the suites with a collection give a record, each with the file's
      path. */
  lemma {:induction false} RecordsOfExactly(suites: seq<Suite>, path: string, r: CollectionRecord)
    ensures r in RecordsOf(suites, path) <==>
      r.path == path && Suite(Some(Collection(r.name, r.notificationChannels))) in suites
    decreases |suites|
  {
    if suites != [] {
      var init := suites[..|suites| - 1];
      RecordsOfExactly(init, path, r);
      assert suites == init + [suites[|suites| - 1]];
    }
  }

  /** Extraction keeps the suites' order: it distributes over concatenation. */
  lemma {:induction false} RecordsOfAppend(a: seq<Suite>, b: seq<Suite>, path: string)
    ensures RecordsOf(a + b, path) == RecordsOf(a, path) + RecordsOf(b, path)
    decreases |b|
  {
    if b == [] {
      assert a + b == a;
    } else {
      assert (a + b)[..|a + b| - 1] == a + b[..|b| - 1];
      RecordsOfAppend(a, b[..|b| - 1], path);
    }
  }

  /** The record counts: it has a name and the name is not empty. */
  predicate Counted(r: CollectionRecord)
  {
    r.name.Some? && r.name.value != ""
  }

  /** The records counted under `name`, in order. */
  function Named(records: seq<CollectionRecord>, name: string): seq<CollectionRecord>
  {
    if records == [] then []
    else
      var last := records[|records| - 1];
      Named(records[..|records| - 1], name) + if Counted(last) && last.name.value == name then [last] else []
  }

  /** The names of the counted records. */
  function Names(records: seq<CollectionRecord>): set<string>
  {
    set r | r in records && Counted(r) :: r.name.value
  }

  /** The dataset of a `project/dataset/...` path: its second segment. */
  function DatasetOfPath(path: string): (d: Option<string>)
    ensures d.Some? <==> '/' in path
    ensures d.Some? ==> d.value == Split(path, '/')[1] && '/' !in d.value
  {
    var parts := Split(path, '/');
    SplitSeveral(path, '/');
    if |parts| >= 2 then
      assert parts[1] in parts;
      Some(parts[1])
    else None
  }

  /** The labels a channel contributes: `slack:<v>` and `email:<v>` for the
      keys a mapping has; nothing for any other channel. */
  function ChannelLabels(channel: Channel): set<string>
  {
    if channel.ChannelMap? then
      (if channel.slack.Some? then {"slack:" + channel.slack.value} else {}) +
      (if channel.email.Some? then {"email:" + channel.email.value} else {})
    else {}
  }

  /** The labels of a sequence of channels. */
  function LabelsOf(channels: seq<Channel>): set<string>
  {
    if channels == [] then {}
    else LabelsOf(channels[..|channels| - 1]) + ChannelLabels(channels[|channels| - 1])
  }

  /** A collection's summary while the records are being read. */
  datatype Entry = Entry(count: nat, channels: set<string>, datasets: set<string>, tables: seq<string>)

  /** A new entry. */
  const EmptyEntry: Entry := Entry(0, {}, {}, [])

  /** The entry after reading one more record of its collection. */
  function Add(e: Entry, r: CollectionRecord): Entry
  {
    Entry(e.count + 1,
          e.channels + LabelsOf(r.notificationChannels),
          e.datasets + (if DatasetOfPath(r.path).Some? then {DatasetOfPath(r.path).value} else {}),
          e.tables + [r.path])
  }

  /** The entry after reading the records `rs`, in order. */
  function Tally(rs: seq<CollectionRecord>): Entry
  {
    if rs == [] then EmptyEntry else Add(Tally(rs[..|rs| - 1]), rs[|rs| - 1])
  }

  /** A collection's final summary: the channels and datasets sorted. */
  datatype Summary = Summary(count: nat, channels: seq<string>, datasets: seq<string>, tables: seq<string>)

  /** The summary of an entry. */
  function Finalize(e: Entry): Summary
  {
    Summary(e.count, SortSet(e.channels), SortSet(e.datasets), e.tables)
  }

  /** The inner loop over a record's channels: adds their labels. */
  method AddChannelLabels(labels: set<string>, channels: seq<Channel>) returns (r: set<string>)
    ensures r == labels + LabelsOf(channels)
  {
    r := labels;
    var j := 0;
    while j < |channels|
      invariant 0 <= j <= |channels|
      invariant r == labels + LabelsOf(channels[..j])
    {
      var channel := channels[j];
      if channel.ChannelMap? {
        if channel.slack.Some? {
          r := r + {"slack:" + channel.slack.value};
        }
        if channel.email.Some? {
          r := r + {"email:" + channel.email.value};
        }
      }
      assert channels[..j + 1][..j] == channels[..j];
      j := j + 1;
    }
    assert channels[..j] == channels;
  }

  /** Reading one more record extends the records counted under a name by
      that record when it is counted under the name, and by nothing otherwise. */
  lemma NamedStep(records: seq<CollectionRecord>, i: nat, name: string)
    requires i < |records|
    ensures Named(records[..i + 1], name)
         == Named(records[..i], name) + if Counted(records[i]) && records[i].name.value == name then [records[i]] else []
  {
    assert records[..i + 1][..i] == records[..i];
  }

  lemma NamesStep(records: seq<CollectionRecord>, i: nat)
    requires i < |records|
    ensures Names(records[..i + 1]) == Names(records[..i]) + if Counted(records[i]) then {records[i].name.value} else {}
  {
    assert records[..i + 1] == records[..i] + [records[i]];
  }

  /** The entry of a name after one more record. */
  lemma TallyNamedStep(records: seq<CollectionRecord>, i: nat, name: string)
    requires i < |records|
    ensures Tally(Named(records[..i + 1], name))
         == if Counted(records[i]) && records[i].name.value == name then Add(Tally(Named(records[..i], name)), records[i])
            else Tally(Named(records[..i], name))
  {
    NamedStep(records, i, name);
    var before := Named(records[..i], name);
    if Counted(records[i]) && records[i].name.value == name {
      TallyAppend(before, records[i]);
    } else {
      assert Named(records[..i + 1], name) == before + [] == before;
    }
  }

  /** Reading the records `rs` and then `r` is reading `rs + [r]`. */
  lemma TallyAppend(rs: seq<CollectionRecord>, r: CollectionRecord)
    ensures Tally(rs + [r]) == Add(Tally(rs), r)
  {
    assert (rs + [r])[..|rs|] == rs;
  }

  /** The working entries after the records `records[..i]`. */
  ghost predicate Tallied(work: map<string, Entry>, records: seq<CollectionRecord>, i: nat)
    requires i <= |records|
  {
    work.Keys == Names(records[..i]) &&
    forall name :: name in work ==> work[name] == Tally(Named(records[..i], name))
  }

  /** Before any record is read there are no entries. */
  lemma NothingTallied(records: seq<CollectionRecord>)
    ensures Tallied(map[], records, 0)
  {
    assert records[..0] == [];
  }

  /** Reading one counted record updates exactly its own entry. */
  lemma TallyStep(work: map<string, Entry>, records: seq<CollectionRecord>, i: nat, work': map<string, Entry>)
    requires i < |records| && Counted(records[i])
    requires Tallied(work, records, i)
    requires var name := records[i].name.value;
      work' == work[name := Add(if name in work then work[name] else EmptyEntry, records[i])]
    ensures Tallied(work', records, i + 1)
  {
    var name := records[i].name.value;
    var entry := if name in work then work[name] else EmptyEntry;
    NamesStep(records, i);
    if name !in work {
      NamedEmpty(records[..i], name);
    }
    assert entry == Tally(Named(records[..i], name));
    assert work'.Keys == Names(records[..i + 1]);
    forall n | n in work' ensures work'[n] == Tally(Named(records[..i + 1], n)) {
      TallyNamedStep(records, i, n);
      if n == name {
        assert work'[n] == Add(entry, records[i]);
      } else {
        assert work'[n] == work[n];
      }
    }
  }

  /** A name with no counted record has no records. */
  lemma {:induction false} NamedEmpty(records: seq<CollectionRecord>, name: string)
    requires name !in Names(records)
    ensures Named(records, name) == []
    decreases |records|
  {
    if records != [] {
      var last := records[|records| - 1];
      assert forall r :: r in records[..|records| - 1] ==> r in records;
      NamedEmpty(records[..|records| - 1], name);
      assert last in records;
    }
  }

  /** Reading an uncounted record changes nothing. */
  lemma SkipStep(work: map<string, Entry>, records: seq<CollectionRecord>, i: nat)
    requires i < |records| && !Counted(records[i])
    requires Tallied(work, records, i)
    ensures Tallied(work, records, i + 1)
  {
    NamesStep(records, i);
    forall n | n in work ensures work[n] == Tally(Named(records[..i + 1], n)) {
      TallyNamedStep(records, i, n);
    }
  }

  /** The body of the aggregation loop for one counted record: counts it,
      records its dataset and path, and adds its channels' labels. */
  method ReadRecord(entry: Entry, collection: CollectionRecord) returns (updated: Entry)
    ensures updated == Add(entry, collection)
  {
    updated := entry.(count := entry.count + 1);
    var pathParts := Split(collection.path, '/');
    if |pathParts| >= 2 {
      updated := updated.(datasets := updated.datasets + {pathParts[1]});
    }
    updated := updated.(tables := updated.tables + [collection.path]);
    var channels := AddChannelLabels(updated.channels, collection.notificationChannels);
    updated := updated.(channels := channels);
  }

  /** `aggregate_collections`, over the records of all files in order: one
      summary per counted name, with the channels and datasets sorted. */
  method AggregateCollections(records: seq<CollectionRecord>) returns (data: map<string, Summary>)
    ensures data.Keys == Names(records)
    ensures forall name :: name in data ==> data[name] == Finalize(Tally(Named(records, name)))
  {
    var work: map<string, Entry> := map[];
    var i := 0;
    NothingTallied(records);
    while i < |records|
      invariant 0 <= i <= |records|
      invariant Tallied(work, records, i)
    {
      work := ReadCollection(work, records, i);
      i := i + 1;
    }
    AllTallied(work, records);
    data := Finalized(work);
  }

  /** The body of the aggregation loop: a record whose name is missing or
      empty is skipped; any other updates the entry of its name. */
  method ReadCollection(work: map<string, Entry>, records: seq<CollectionRecord>, i: nat) returns (work': map<string, Entry>)
    requires i < |records| && Tallied(work, records, i)
    ensures Tallied(work', records, i + 1)
  {
    var collection := records[i];
    if collection.name.Some? && collection.name.value != "" {
      var name := collection.name.value;
      var entry := if name in work then work[name] else EmptyEntry;
      entry := ReadRecord(entry, collection);
      work' := work[name := entry];
      TallyStep(work, records, i, work');
    } else {
      work' := work;
      SkipStep(work, records, i);
    }
  }

  /** After the last record, the entries are those of all the records. */
  lemma AllTallied(work: map<string, Entry>, records: seq<CollectionRecord>)
    requires Tallied(work, records, |records|)
    ensures work.Keys == Names(records)
    ensures forall name :: name in work ==> work[name] == Tally(Named(records, name))
  {
    assert records[..|records|] == records;
  }

  /** The final loop of the aggregation: sorts every entry's channels and datasets. */
  method Finalized(work: map<string, Entry>) returns (data: map<string, Summary>)
    ensures data.Keys == work.Keys
    ensures forall name :: name in data ==> data[name] == Finalize(work[name])
  {
    data := map[];
    var pending := work.Keys;
    while pending != {}
      invariant pending <= work.Keys
      invariant data.Keys == work.Keys - pending
      invariant forall name :: name in data ==> data[name] == Finalize(work[name])
      decreases |pending|
    {
      var name :| name in pending;
      data := data[name := Summary(work[name].count, SortSet(work[name].channels), SortSet(work[name].datasets), work[name].tables)];
      pending := pending - {name};
    }
  }

  /** A summary counts its records and lists their paths in reading order. */
  lemma {:induction false} TallyTables(rs: seq<CollectionRecord>)
    ensures Tally(rs).count == |rs| == |Tally(rs).tables|
    ensures forall k :: 0 <= k < |rs| ==> Tally(rs).tables[k] == rs[k].path
    decreases |rs|
  {
    if rs != [] {
      TallyTables(rs[..|rs| - 1]);
    }
  }

  /** A dataset is listed exactly when some record's path has it as its
      second segment. */
  lemma {:induction false} TallyDatasets(rs: seq<CollectionRecord>, d: string)
    ensures d in Tally(rs).datasets <==> exists r :: r in rs && DatasetOfPath(r.path) == Some(d)
    decreases |rs|
  {
    if rs != [] {
      var init := rs[..|rs| - 1];
      var last := rs[|rs| - 1];
      TallyDatasets(init, d);
      assert d in Tally(rs).datasets <==> d in Tally(init).datasets || DatasetOfPath(last.path) == Some(d);
      assert rs == init + [last];
    }
  }

  /** A label is listed exactly when it comes from a channel of some record. */
  lemma {:induction false} TallyChannels(rs: seq<CollectionRecord>, text: string)
    ensures text in Tally(rs).channels <==>
      exists r, c :: r in rs && c in r.notificationChannels && text in ChannelLabels(c)
    decreases |rs|
  {
    if rs != [] {
      var init := rs[..|rs| - 1];
      var last := rs[|rs| - 1];
      TallyChannels(init, text);
      LabelsOfExactly(last.notificationChannels, text);
      assert rs == init + [last];
    }
  }

  /** A label comes from a list of channels exactly when one of them gives it. */
  lemma {:induction false} LabelsOfExactly(channels: seq<Channel>, text: string)
    ensures text in LabelsOf(channels) <==> exists c :: c in channels && text in ChannelLabels(c)
    decreases |channels|
  {
    if channels != [] {
      var init := channels[..|channels| - 1];
      LabelsOfExactly(init, text);
      assert channels == init + [channels[|channels| - 1]];
    }
  }

  /** The records counted under a name are exactly the counted records with
      that name, in order. */
  lemma {:induction false} NamedExactly(records: seq<CollectionRecord>, name: string, r: CollectionRecord)
    ensures r in Named(records, name) <==> r in records && Counted(r) && r.name.value == name
    decreases |records|
  {
    if records != [] {
      var init := records[..|records| - 1];
      NamedExactly(init, name, r);
      assert records == init + [records[|records| - 1]];
    }
  }

  /** Each summary's channels and datasets are sorted and free of duplicates,
      and it lists one table per counted record of its name. */
  lemma SummariesAreSortedAndCounted(records: seq<CollectionRecord>, name: string)
    ensures var s := Finalize(Tally(Named(records, name)));
      Ascending(s.channels) && Ascending(s.datasets) && s.count == |s.tables| == |Named(records, name)|
  {
    TallyTables(Named(records, name));
  }

  /** Counting is in reading order: the records of later files come after
      those of earlier ones. */
  lemma {:induction false} NamedAppend(a: seq<CollectionRecord>, b: seq<CollectionRecord>, name: string)
    ensures Named(a + b, name) == Named(a, name) + Named(b, name)
    decreases |b|
  {
    if b == [] {
      assert a + b == a;
    } else {
      assert (a + b)[..|a + b| - 1] == a + b[..|b| - 1];
      NamedAppend(a, b[..|b| - 1], name);
    }
  }

  /** A record whose name is missing or empty leaves every summary as it was. */
  lemma UnnamedRecordsAreIgnored(records: seq<CollectionRecord>, r: CollectionRecord, name: string)
    requires !Counted(r)
    ensures Names(records + [r]) == Names(records)
    ensures Named(records + [r], name) == Named(records, name)
  {
    assert (records + [r])[..|records|] == records;
  }

  /** A summary's datasets are the second path segments of the records
      counted under its name. */
  lemma SummaryDatasets(records: seq<CollectionRecord>, name: string, d: string)
    ensures d in Finalize(Tally(Named(records, name))).datasets <==>
      exists r :: r in records && Counted(r) && r.name.value == name && DatasetOfPath(r.path) == Some(d)
  {
    TallyDatasets(Named(records, name), d);
    forall r ensures r in Named(records, name) <==> r in records && Counted(r) && r.name.value == name {
      NamedExactly(records, name, r);
    }
  }

  /** A summary's channels are the labels of the mapping channels of the
      records counted under its name. */
  lemma SummaryChannels(records: seq<CollectionRecord>, name: string, text: string)
    ensures text in Finalize(Tally(Named(records, name))).channels <==>
      exists r, c :: r in records && Counted(r) && r.name.value == name &&
                     c in r.notificationChannels && text in ChannelLabels(c)
  {
    TallyChannels(Named(records, name), text);
    forall r ensures r in Named(records, name) <==> r in records && Counted(r) && r.name.value == name {
      NamedExactly(records, name, r);
    }
  }

  /** A mapping channel with both keys contributes both labels to the summary
      of its record's name. */
  lemma BothKeysApply(records: seq<CollectionRecord>, r: CollectionRecord, slack: string, email: string)
    requires r in records && Counted(r)
    requires ChannelMap(Some(slack), Some(email)) in r.notificationChannels
    ensures var s := Finalize(Tally(Named(records, r.name.value)));
      "slack:" + slack in s.channels && "email:" + email in s.channels
  {
    var c := ChannelMap(Some(slack), Some(email));
    SummaryChannels(records, r.name.value, "slack:" + slack);
    SummaryChannels(records, r.name.value, "email:" + email);
    assert "slack:" + slack in ChannelLabels(c) && "email:" + email in ChannelLabels(c);
  }
}
