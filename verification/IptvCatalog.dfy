/**
Replacing a source's catalog (internal/storage/iptv.go, internal/iptv/sync.go): as one snapshot, or
streamed batch by batch inside the transaction. Deleting a catalog row also deletes its playback
progress, because the progress table references it with ON DELETE CASCADE.
*/
module IptvCatalog {
  import opened Wrappers
  import opened Text
  import opened IptvRows
  import opened M3uAttributes
  import opened M3uStream

  const STREAM_IMPORT_LIMIT := 1_500_000
  const STREAM_IMPORT_BATCH_SIZE := 5_000

  datatype SourceConfig = SourceConfig(
    id: string, name: string, format: string, playlistUrl: string, guideUrl: string,
    credentialRef: string, enabled: bool)

  datatype SourceRow = SourceRow(config: SourceConfig, lastSync: string, lastError: string)

  datatype Progress = Progress(position: int, duration: int, completed: bool)

  /** The three tables a catalog refresh touches. */
  datatype Tables = Tables(
    sources: map<string, SourceRow>, rows: Rows, progress: map<string, Progress>)

  datatype SyncError = InvalidSource | InvalidItem | FetchFailed | StoreFailed

  /** The foreign key of the progress table. */
  ghost predicate Consistent(tables: Tables) {
    tables.progress.Keys <= tables.rows.Keys
  }

  // ---------------------------------------------------------------- statements

  /** DELETE FROM iptv_items WHERE ..., with the cascade to playback progress. */
  function DeleteRows(tables: Tables, doomed: set<string>): Tables {
    tables.(rows := tables.rows - doomed, progress := tables.progress - doomed)
  }

  function OwnedBy(rows: Rows, sourceId: string): set<string> {
    set id | id in rows && rows[id].sourceId == sourceId
  }

  function UpsertSource(tables: Tables, config: SourceConfig, stamp: string): Tables {
    tables.(sources := tables.sources[config.id := SourceRow(config, stamp, "")])
  }

  function Ids(items: seq<Item>): set<string> {
    set item | item in items :: item.id
  }

  // ---------------------------------------------------------------- the snapshot path

  /** Endpoint validation, the part of `prepareIPTVSource` that needs URL parsing. */
  type Endpoint = string -> Option<string>

  /** `prepareIPTVSource`: a source needs an id, the one format there is, and two good endpoints. */
  function Prepared(config: SourceConfig, endpoint: Endpoint): (prepared: Result<SourceConfig, SyncError>)
    ensures prepared.Ok? <==>
              && Trim(config.id) != "" && config.format in ["", "m3u"]
              && endpoint(config.playlistUrl).Some? && endpoint(config.guideUrl).Some?
    ensures prepared.Ok? ==>
              && prepared.value.id == Trim(config.id) && prepared.value.format == "m3u"
              && prepared.value.name == (if Trim(config.name) != "" then Trim(config.name) else Trim(config.id))
              && Some(prepared.value.playlistUrl) == endpoint(config.playlistUrl)
              && Some(prepared.value.guideUrl) == endpoint(config.guideUrl)
              && prepared.value.credentialRef == config.credentialRef && prepared.value.enabled == config.enabled
  {
    var id, name := Trim(config.id), Trim(config.name);
    if id == "" then Err(InvalidSource)
    else if config.format != "" && config.format != "m3u" then Err(InvalidSource)
    else match (endpoint(config.playlistUrl), endpoint(config.guideUrl))
      case (Some(playlist), Some(guide)) =>
        Ok(SourceConfig(
          id, if name == "" then id else name, "m3u", playlist, guide, config.credentialRef, config.enabled))
      case _ => Err(InvalidSource)
  }

  predicate ValidItems(sourceId: string, items: seq<Item>) {
    forall item :: item in items ==> Trim(item.id) != "" && (item.sourceId == "" || item.sourceId == sourceId)
  }

  /** `replaceIPTVItemsTx`: upsert every item, then delete the source's rows that were not listed. */
  function ReplacedItems(tables: Tables, sourceId: string, items: seq<Item>, stamp: string): Tables {
    if items == [] then DeleteRows(tables, OwnedBy(tables.rows, sourceId))
    else
      var upserted := tables.(rows := UpsertAll(tables.rows, items, sourceId, stamp, KeepUnlessEmpty));
      DeleteRows(upserted, OwnedBy(upserted.rows, sourceId) - Ids(items))
  }

  function Replaced(
    tables: Tables, config: SourceConfig, endpoint: Endpoint, items: seq<Item>, stamp: string)
    : Result<Tables, SyncError> {
    match Prepared(config, endpoint)
    case Err(error) => Err(error)
    case Ok(prepared) =>
      if !ValidItems(prepared.id, items) then Err(InvalidItem)
      else Ok(ReplacedItems(UpsertSource(tables, prepared, stamp), prepared.id, items, stamp))
  }

  // ---------------------------------------------------------------- the streaming path

  /** What the batched import leaves: the source's rows cleared first, then every item upserted. */
  function Imported(tables: Tables, config: SourceConfig, items: seq<Item>, stamp: string): Tables {
    var cleared := DeleteRows(UpsertSource(tables, config, stamp), OwnedBy(tables.rows, config.id));
    cleared.(rows := UpsertAll(cleared.rows, items, config.id, stamp, KeepAlways))
  }

  // ---------------------------------------------------------------- the store

  /**
  The repository. `failsAt` is the item whose INSERT the database refuses, if any, and `commits` says
  whether COMMIT succeeds.
  */
  class CatalogStore {
    var tables: Tables
    const failsAt: Option<nat>
    const commits: bool

    constructor (tables: Tables, failsAt: Option<nat>, commits: bool)
      ensures this.tables == tables && this.failsAt == failsAt && this.commits == commits
    {
      this.tables := tables;
      this.failsAt := failsAt;
      this.commits := commits;
    }

    ghost predicate Accepts(items: seq<Item>) {
      commits && (failsAt.Some? ==> |items| <= failsAt.value)
    }

    /** The upsert loop of `replaceIPTVItemsTx` on the rows of an open transaction. */
    method UpsertItems(rows: Rows, items: seq<Item>, sourceId: string, stamp: string) returns (result: Option<Rows>)
      ensures result.Some? <==> failsAt.Some? ==> |items| <= failsAt.value
      ensures result.Some? ==> result.value == UpsertAll(rows, items, sourceId, stamp, KeepUnlessEmpty)
    {
      var current := rows;
      for i := 0 to |items|
        invariant failsAt.Some? ==> i <= failsAt.value
        invariant current == UpsertAll(rows, items[..i], sourceId, stamp, KeepUnlessEmpty)
      {
        if failsAt == Some(i) {
          return None;
        }
        assert items[..i + 1][..i] == items[..i];
        current := Upsert(current, items[i], sourceId, stamp, KeepUnlessEmpty);
      }
      assert items[..|items|] == items;
      return Some(current);
    }

    method ReplaceCatalog(config: SourceConfig, endpoint: Endpoint, items: seq<Item>, stamp: string)
      returns (result: Result<(), SyncError>)
      modifies this
      ensures result.Ok? <==> Replaced(old(tables), config, endpoint, items, stamp).Ok? && Accepts(items)
      ensures tables == if result.Ok? then Replaced(old(tables), config, endpoint, items, stamp).value else old(tables)
    {
      hide Trim;
      var prepared := Prepared(config, endpoint);
      if prepared.Err? {
        return Err(prepared.error);
      }
      if !ValidItems(prepared.value.id, items) {
        return Err(InvalidItem);
      }
      var sourceId := prepared.value.id;
      var transaction := UpsertSource(tables, prepared.value, stamp);
      if items == [] {
        transaction := DeleteRows(transaction, OwnedBy(transaction.rows, sourceId));
      } else {
        var upserted := UpsertItems(transaction.rows, items, sourceId, stamp);
        if upserted.None? {
          return Err(StoreFailed);
        }
        transaction := transaction.(rows := upserted.value);
        transaction := DeleteRows(transaction, OwnedBy(transaction.rows, sourceId) - Ids(items));
      }
      if !commits {
        return Err(StoreFailed);
      }
      tables := transaction;
      return Ok(());
    }

    /** The batched import: the parser drives the insert handler inside one transaction. */
    method ImportCatalog(words: Vocabulary, config: SourceConfig, feed: Feed, stamp: string)
      returns (result: Result<seq<Warning>, SyncError>)
      modifies this
      ensures var parse := ParseLines(words, StreamOptions(config), feed.lines);
              && (result.Ok? <==> !parse.full && !feed.failed && Accepts(parse.items))
              && (result.Ok? ==> result.value == FinalWarnings(parse))
              && tables == if result.Ok? then Imported(old(tables), config, parse.items, stamp) else old(tables)
    {
      hide ParseLines, Normalized, UpsertAll;
      var transaction := DeleteRows(UpsertSource(tables, config, stamp), OwnedBy(tables.rows, config.id));
      var handler := new BatchHandler(Insert(config.id, stamp), transaction.rows, failsAt);
      var parsed := ParseM3uStream(words, feed,
        Options(config.id, config.name, STREAM_IMPORT_LIMIT, STREAM_IMPORT_BATCH_SIZE), handler);
      if parsed.Err? {
        return Err(StoreFailed);
      }
      if !commits {
        return Err(StoreFailed);
      }
      tables := transaction.(rows := handler.rows);
      return Ok(parsed.value.warnings);
    }
  }

  function StreamOptions(config: SourceConfig): Options {
    Normalized(Options(config.id, config.name, STREAM_IMPORT_LIMIT, STREAM_IMPORT_BATCH_SIZE))
  }

  function SnapshotOptions(config: SourceConfig): Options {
    Normalized(Options(config.id, config.name, 0, 0))
  }

  /** What the snapshot path makes of a feed: parse everything, then replace. */
  function SnapshotSync(
    tables: Tables, words: Vocabulary, config: SourceConfig, endpoint: Endpoint, feed: Feed, stamp: string)
    : Result<Tables, SyncError> {
    var parse := ParseLines(words, SnapshotOptions(config), feed.lines);
    if parse.full || feed.failed then Err(FetchFailed)
    else Replaced(tables, config, endpoint, parse.items, stamp)
  }

  function StreamSync(
    tables: Tables, words: Vocabulary, config: SourceConfig, feed: Feed, stamp: string): Result<Tables, SyncError> {
    var parse := ParseLines(words, StreamOptions(config), feed.lines);
    if parse.full || feed.failed then Err(StoreFailed)
    else Ok(Imported(tables, config, parse.items, stamp))
  }

  /** `SyncM3U`: the streaming path when the store offers it, else the snapshot. */
  method SyncM3u(
    store: CatalogStore, streams: bool, words: Vocabulary, config: SourceConfig, endpoint: Endpoint, feed: Feed,
    stamp: string)
    returns (result: Result<seq<Warning>, SyncError>)
    modifies store
    ensures var outcome := if streams then StreamSync(old(store.tables), words, config, feed, stamp)
                           else SnapshotSync(old(store.tables), words, config, endpoint, feed, stamp);
            var options := if streams then StreamOptions(config) else SnapshotOptions(config);
            && (result.Ok? <==> outcome.Ok? && store.Accepts(ParseLines(words, options, feed.lines).items))
            && (result.Ok? ==> result.value == FinalWarnings(ParseLines(words, options, feed.lines)))
            && store.tables == if result.Ok? then outcome.value else old(store.tables)
  {
    hide ParseLines, Normalized, Imported, Replaced;
    if streams {
      result := store.ImportCatalog(words, config, feed, stamp);
      return;
    }
    var playlist := ParseM3u(words, feed, Options(config.id, config.name, 0, 0));
    if playlist.Err? {
      return Err(FetchFailed);
    }
    var replaced := store.ReplaceCatalog(config, endpoint, playlist.value.0, stamp);
    match replaced
    case Err(error) => return Err(error);
    case Ok(_) => return Ok(playlist.value.1);
  }

  // ---------------------------------------------------------------- both paths store the same rows

  ghost predicate SameButFirstSeen(a: Rows, b: Rows) {
    a.Keys == b.Keys && forall id :: id in a ==> a[id].(firstSeen := "") == b[id].(firstSeen := "")
  }

  lemma HasIsId(items: seq<Item>, id: string)
    ensures Has(items, id) <==> id in Ids(items)
  {
    if id in Ids(items) {
      var item :| item in items && item.id == id;
      var i :| 0 <= i < |items| && items[i] == item;
    }
  }

  /** The row a refresh leaves under an id, and whether it leaves one. */
  lemma RowAfterRefresh(tables: Tables, config: SourceConfig, items: seq<Item>, stamp: string, id: string)
    requires stamp != ""
    ensures var snapshot := ReplacedItems(UpsertSource(tables, config, stamp), config.id, items, stamp).rows;
            var streamed := Imported(tables, config, items, stamp).rows;
            if Has(items, id) then
              var others := id in tables.rows && tables.rows[id].sourceId != config.id;
              && id in snapshot && id in streamed
              && snapshot[id] == Row(config.id, DetailsOf(Last(items, id)),
                                     FirstStamp(tables.rows, id, stamp, KeepUnlessEmpty), stamp)
              && streamed[id] == Row(config.id, DetailsOf(Last(items, id)),
                                     if others then tables.rows[id].firstSeen else stamp, stamp)
            else
              var kept := id in tables.rows && tables.rows[id].sourceId != config.id;
              && (id in snapshot <==> kept) && (id in streamed <==> kept)
              && (kept ==> snapshot[id] == tables.rows[id] == streamed[id])
  {
    hide UpsertAll, Upsert;
    HasIsId(items, id);
    UpsertAllResult(tables.rows, items, config.id, stamp, KeepUnlessEmpty, id);
    var cleared := tables.rows - OwnedBy(tables.rows, config.id);
    UpsertAllResult(cleared, items, config.id, stamp, KeepAlways, id);
  }

  /** On both paths the source is recorded as synchronized now and without an error; other sources stay. */
  lemma SourcesAfterRefresh(tables: Tables, config: SourceConfig, items: seq<Item>, stamp: string)
    ensures var snapshot := ReplacedItems(UpsertSource(tables, config, stamp), config.id, items, stamp).sources;
            var streamed := Imported(tables, config, items, stamp).sources;
            && snapshot == streamed && snapshot.Keys == tables.sources.Keys + {config.id}
            && snapshot[config.id].config == config && snapshot[config.id].lastSync == stamp
            && snapshot[config.id].lastError == ""
            && forall id :: id in tables.sources && id != config.id ==> snapshot[id] == tables.sources[id]
  {
    hide UpsertAll;
  }

  /** For any list of items the two paths leave the same rows, first-seen stamps aside. */
  lemma SameRows(tables: Tables, config: SourceConfig, items: seq<Item>, stamp: string)
    requires stamp != ""
    ensures SameButFirstSeen(ReplacedItems(UpsertSource(tables, config, stamp), config.id, items, stamp).rows,
                             Imported(tables, config, items, stamp).rows)
  {
    var snapshot := ReplacedItems(UpsertSource(tables, config, stamp), config.id, items, stamp).rows;
    var streamed := Imported(tables, config, items, stamp).rows;
    forall id ensures (id in snapshot <==> id in streamed)
      && (id in snapshot ==> snapshot[id].(firstSeen := "") == streamed[id].(firstSeen := "")) {
      hide ReplacedItems, Imported;
      RowAfterRefresh(tables, config, items, stamp, id);
    }
  }

  /** When two refreshes of the same tables from the same feed end alike. */
  ghost predicate Agree(a: Result<Tables, SyncError>, b: Result<Tables, SyncError>) {
    && (a.Ok? <==> b.Ok?)
    && (a.Ok? ==> a.value.sources == b.value.sources && SameButFirstSeen(a.value.rows, b.value.rows))
  }

  /** The stored row of a source is what a refresh at this instant would write. */
  predicate IsStored(tables: Tables, config: SourceConfig, stamp: string) {
    config.id in tables.sources && tables.sources[config.id] == SourceRow(config, stamp, "")
  }

  /**
  The one way for a source not in its stored form to come out alike: its id is not trimmed, the rows of the source
  under both ids are there already, and neither has items nor gets any.
  */
  predicate NothingToDo(tables: Tables, config: SourceConfig, prepared: SourceConfig, items: seq<Item>, stamp: string) {
    && prepared.id != config.id && items == [] && IsStored(tables, config, stamp) && IsStored(tables, prepared, stamp)
    && OwnedBy(tables.rows, config.id) == {} && OwnedBy(tables.rows, prepared.id) == {}
  }

  /**
  Streaming refines the snapshot: the two paths end alike exactly when the feed is unreadable or too long for
  both, or it holds no more items than the snapshot allows and the source is in its stored form. The import
  neither prepares nor validates the source.
  */
  lemma StreamingRefinesSnapshot(
    tables: Tables, words: Vocabulary, config: SourceConfig, endpoint: Endpoint, feed: Feed, stamp: string)
    requires stamp != ""
    ensures var parse, prepared := ParseLines(words, StreamOptions(config), feed.lines), Prepared(config, endpoint);
            Agree(SnapshotSync(tables, words, config, endpoint, feed, stamp),
                  StreamSync(tables, words, config, feed, stamp))
            <==> feed.failed || parse.full
                 || (|parse.items| <= DEFAULT_MAX_ITEMS && prepared.Ok?
                     && (prepared.value == config || NothingToDo(tables, config, prepared.value, parse.items, stamp)))
  {
    hide Trim, ParseLines, ReplacedItems, Imported, ValidItems, IsStored;
    var small, large := SnapshotOptions(config), StreamOptions(config);
    LimitOnly(words, small, large, feed.lines);
    var parse, prepared := ParseLines(words, large, feed.lines), Prepared(config, endpoint);
    if !feed.failed && !parse.full && |parse.items| <= DEFAULT_MAX_ITEMS && prepared.Ok? {
      var items := parse.items;
      ItemsFit(words, config, prepared.value, endpoint, feed);
      if prepared.value == config {
        SameRows(tables, config, items, stamp);
        SourcesAlike(tables, config, items, stamp);
      } else if prepared.value.id == config.id {
        SourcesAlike(tables, config, items, stamp);
        SourcesAlike(tables, prepared.value, items, stamp);
        SourcesDiffer(tables, config, prepared.value, stamp);
      } else if items == [] {
        EmptyRefresh(tables, config, prepared.value, stamp);
      }
    }
  }

  /** The snapshot takes the items of the parse exactly when there are none or the id of the source is trimmed. */
  lemma ItemsFit(words: Vocabulary, config: SourceConfig, prepared: SourceConfig, endpoint: Endpoint, feed: Feed)
    requires Prepared(config, endpoint) == Ok(prepared)
    ensures var items := ParseLines(words, StreamOptions(config), feed.lines).items;
            ValidItems(prepared.id, items) <==> items == [] || prepared.id == config.id
  {
    hide ParseLines;
    ItemsBelong(words, StreamOptions(config), feed.lines);
    var items := ParseLines(words, StreamOptions(config), feed.lines).items;
    assert StreamOptions(config).sourceId == config.id;
    assert items != [] ==> items[0] in items && items[0].sourceId == config.id;
    assert config.id != "" by { assert Trim("") == ""; }
  }

  lemma SourcesDiffer(tables: Tables, config: SourceConfig, prepared: SourceConfig, stamp: string)
    requires prepared != config
    ensures UpsertSource(tables, config, stamp).sources == UpsertSource(tables, prepared, stamp).sources
            <==> prepared.id != config.id && IsStored(tables, config, stamp) && IsStored(tables, prepared, stamp)
  {
    var a, b := UpsertSource(tables, config, stamp).sources, UpsertSource(tables, prepared, stamp).sources;
    assert a[config.id] == SourceRow(config, stamp, "") && b[prepared.id] == SourceRow(prepared, stamp, "");
    if a == b {
      assert prepared.id in a && config.id in b && a[prepared.id] == b[prepared.id] && b[config.id] == a[config.id];
    }
  }

  /** Without items, each path deletes the rows of the id it goes by. */
  lemma EmptyRefresh(tables: Tables, config: SourceConfig, prepared: SourceConfig, stamp: string)
    requires prepared.id != config.id
    ensures var snapshot := ReplacedItems(UpsertSource(tables, prepared, stamp), prepared.id, [], stamp);
            var streamed := Imported(tables, config, [], stamp);
            snapshot.sources == streamed.sources && SameButFirstSeen(snapshot.rows, streamed.rows)
            <==> NothingToDo(tables, config, prepared, [], stamp)
  {
    SourcesDiffer(tables, config, prepared, stamp);
    var snapshot := ReplacedItems(UpsertSource(tables, prepared, stamp), prepared.id, [], stamp);
    var streamed := Imported(tables, config, [], stamp);
    assert snapshot.rows == tables.rows - OwnedBy(tables.rows, prepared.id);
    assert streamed.rows == tables.rows - OwnedBy(tables.rows, config.id);
    hide UpsertAll, Upsert, IsStored;
    if snapshot.rows.Keys == streamed.rows.Keys {
      assert forall id :: id in OwnedBy(tables.rows, prepared.id) ==> id in streamed.rows;
      assert forall id :: id in OwnedBy(tables.rows, config.id) ==> id in snapshot.rows;
    }
  }

  lemma SourcesAlike(tables: Tables, config: SourceConfig, items: seq<Item>, stamp: string)
    ensures ReplacedItems(UpsertSource(tables, config, stamp), config.id, items, stamp).sources
            == Imported(tables, config, items, stamp).sources
            == UpsertSource(tables, config, stamp).sources
  {
  }

  // ---------------------------------------------------------------- what becomes of playback progress

  /** A refresh keeps the foreign key of the progress table. */
  lemma RefreshIsConsistent(tables: Tables, config: SourceConfig, items: seq<Item>, stamp: string)
    requires stamp != "" && Consistent(tables)
    ensures Consistent(ReplacedItems(UpsertSource(tables, config, stamp), config.id, items, stamp))
    ensures Consistent(Imported(tables, config, items, stamp))
  {
    forall id | id in tables.progress
      ensures id in ReplacedItems(UpsertSource(tables, config, stamp), config.id, items, stamp).progress
              ==> id in ReplacedItems(UpsertSource(tables, config, stamp), config.id, items, stamp).rows
      ensures id in Imported(tables, config, items, stamp).progress ==>
          id in Imported(tables, config, items, stamp).rows
    {
      ProgressAfterRefresh(tables, config, items, stamp, id);
      RowAfterRefresh(tables, config, items, stamp, id);
    }
  }

  /**
  Progress survives a snapshot exactly for items that are still listed or belong to another source.
  The streamed refresh keeps only the latter: it deletes every row of the source before inserting.
  */
  lemma ProgressAfterRefresh(tables: Tables, config: SourceConfig, items: seq<Item>, stamp: string, id: string)
    requires stamp != "" && Consistent(tables) && id in tables.progress
    ensures id in ReplacedItems(UpsertSource(tables, config, stamp), config.id, items, stamp).progress
            <==> Has(items, id) || tables.rows[id].sourceId != config.id
    ensures id in Imported(tables, config, items, stamp).progress <==> tables.rows[id].sourceId != config.id
  {
    hide UpsertAll, Upsert;
    HasIsId(items, id);
    UpsertAllResult(tables.rows, items, config.id, stamp, KeepUnlessEmpty, id);
  }

  /**
  Item ids are stable so that progress survives a refresh. On the streamed path it does so exactly
  when the source had no progress to lose among the items that are still listed.
  */
  lemma ProgressSurvivesExactly(tables: Tables, config: SourceConfig, items: seq<Item>, stamp: string)
    requires stamp != "" && Consistent(tables)
    ensures Imported(tables, config, items, stamp).progress
            == ReplacedItems(UpsertSource(tables, config, stamp), config.id, items, stamp).progress
            <==> forall id :: id in tables.progress && tables.rows[id].sourceId == config.id ==> !Has(items, id)
  {
    var streamed := Imported(tables, config, items, stamp).progress;
    var snapshot := ReplacedItems(UpsertSource(tables, config, stamp), config.id, items, stamp).progress;
    ProgressShrinks(tables, config, items, stamp);
    hide ReplacedItems, Imported, Has;
    forall id | id in tables.progress
      ensures id in snapshot <==> Has(items, id) || tables.rows[id].sourceId != config.id
      ensures id in streamed <==> tables.rows[id].sourceId != config.id
    {
      ProgressAfterRefresh(tables, config, items, stamp, id);
    }
    if forall id :: id in tables.progress && tables.rows[id].sourceId == config.id ==> !Has(items, id) {
      assert streamed.Keys == snapshot.Keys;
    }
    if streamed == snapshot {
      forall id | id in tables.progress && tables.rows[id].sourceId == config.id ensures !Has(items, id) {
        assert id !in streamed;
      }
    }
  }

  lemma ProgressShrinks(tables: Tables, config: SourceConfig, items: seq<Item>, stamp: string)
    ensures var snapshot := ReplacedItems(UpsertSource(tables, config, stamp), config.id, items, stamp).progress;
            snapshot.Keys <= tables.progress.Keys && forall id :: id in snapshot ==> snapshot[id] == tables.progress[id]
    ensures var streamed := Imported(tables, config, items, stamp).progress;
            streamed.Keys <= tables.progress.Keys && forall id :: id in streamed ==> streamed[id] == tables.progress[id]
  {
    hide UpsertAll;
  }

  // ---------------------------------------------------------------- inputs on which the two paths part

  const MOVIE := Item(
    "movie-1", "s", "S", "movie", "declared", "Film", "", "", "", "", "", "", "", Episode(0, 0, false, false))

  /** The film, half watched. */
  const HALF_WATCHED := Tables(
    map[], map["movie-1" := Row("s", DetailsOf(MOVIE), "1", "1")], map["movie-1" := Progress(50, 100, false)])

  const SOURCE := SourceConfig("s", "S", "m3u", "http://example.org/list", "", "", true)

  /** A film is listed again, and half watched: the snapshot keeps the progress, the streamed import loses it. */
  lemma ProgressIsLost()
    ensures "movie-1" in ReplacedItems(UpsertSource(HALF_WATCHED, SOURCE, "2"), "s", [MOVIE], "2").progress
    ensures "movie-1" !in Imported(HALF_WATCHED, SOURCE, [MOVIE], "2").progress
  {
    assert [MOVIE][0] == MOVIE;
    assert Has([MOVIE], "movie-1");
    ProgressAfterRefresh(HALF_WATCHED, SOURCE, [MOVIE], "2", "movie-1");
  }

  /** A playlist of `n` channels. */
  function Channels(n: nat): seq<string> {
    if n == 0 then [] else Channels(n - 1) + ["#EXTINF:-1,A", "http://example.org/a"]
  }

  /** One more item than the snapshot allows: it is refused, and the import takes it. */
  lemma LimitsPart(tables: Tables, words: Vocabulary, endpoint: Endpoint, stamp: string)
    requires stamp != "" && Prepared(SOURCE, endpoint) == Ok(SOURCE)
    ensures var feed := Feed(Channels(DEFAULT_MAX_ITEMS + 1), false);
            && SnapshotSync(tables, words, SOURCE, endpoint, feed, stamp).Err?
            && StreamSync(tables, words, SOURCE, feed, stamp).Ok?
  {
    hide ParseLines, Channels, Normalized, ReplacedItems, Imported, Prepared;
    var large, lines := StreamOptions(SOURCE), Channels(DEFAULT_MAX_ITEMS + 1);
    StreamLimit();
    ChannelsParse(words, large, DEFAULT_MAX_ITEMS + 1);
    LimitOnly(words, SnapshotOptions(SOURCE), large, lines);
  }

  lemma StreamLimit()
    ensures StreamOptions(SOURCE).maxItems == STREAM_IMPORT_LIMIT
    ensures SnapshotOptions(SOURCE).maxItems == DEFAULT_MAX_ITEMS
    ensures StreamOptions(SOURCE).sourceId == SnapshotOptions(SOURCE).sourceId
    ensures StreamOptions(SOURCE).sourceName == SnapshotOptions(SOURCE).sourceName
  {
  }

  /** Each channel becomes an item, as long as there is room. */
  lemma {:induction false} ChannelsParse(words: Vocabulary, options: Options, n: nat)
    requires n <= options.maxItems
    ensures var parse := ParseLines(words, options, Channels(n));
            |parse.items| == n && !parse.full && parse.pending == None
  {
    hide Classified, ParsedExtinf;
    if n > 0 {
      ChannelsParse(words, options, n - 1);
      var front, info, url := Channels(n - 1), "#EXTINF:-1,A", "http://example.org/a";
      var lines := Channels(n);
      assert lines == front + [info, url];
      assert lines[..|lines| - 1] == front + [info] && (front + [info])[..|front|] == front;
      ChannelLines();
    }
  }

  lemma ChannelLines()
    ensures Classified("#EXTINF:-1,A") == Info("#EXTINF:-1,A") && ParsedExtinf("#EXTINF:-1,A").Ok?
    ensures Classified("http://example.org/a") == Url("http://example.org/a")
  {
    hide Classified, ParsedExtinf;
    InfoIsInfo();
    UrlIsUrl();
    InfoParses();
  }

  lemma InfoIsInfo()
    ensures Classified("#EXTINF:-1,A") == Info("#EXTINF:-1,A")
  {
    var info := "#EXTINF:-1,A";
    TrimKeeps(info);
    hide Trim, Upper;
    assert |Upper(info)| == |info| && |info| != |EXTM3U|;
    assert Upper(info)[..|EXTINF|] == EXTINF;
    assert info[0] == '#';
  }

  lemma UrlIsUrl()
    ensures Classified("http://example.org/a") == Url("http://example.org/a")
  {
    hide Trim, Upper;
    UrlStays();
    var url := "http://example.org/a";
    assert !(BOM <= url) && Trim(url) == url;
    assert EXTM3U[0] == EXTINF[0] == EXTGRP[0] == '#';
  }

  lemma UrlStays()
    ensures Trim("http://example.org/a") == "http://example.org/a"
    ensures var upper := Upper("http://example.org/a"); upper != "" && upper[0] == 'H'
  {
    hide Trim;
    TrimKeeps("http://example.org/a");
  }

  lemma InfoParses()
    ensures ParsedExtinf("#EXTINF:-1,A").Ok?
  {
    hide Trim, Upper, ParsedExtinf, PrintedPairs, Keyed, AsMap, Get;
    TrimmedTitle();
    NoPairs();
    EntryRoundTrip([], "A");
    InfoSpelled();
  }

  lemma TrimmedTitle()
    ensures Trim("A") == "A"
  {
    TrimKeeps("A");
  }

  lemma NoPairs()
    ensures Keyed([]) && PrintedPairs([]) == ""
  {
  }

  lemma InfoSpelled()
    ensures EXTINF + "-1" + "" + "," + "A" == "#EXTINF:-1,A"
  {
    assert EXTINF + "-1" + "" == "#EXTINF:-1";
    assert "#EXTINF:-1" + "," == "#EXTINF:-1,";
  }
}
