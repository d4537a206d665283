/**
The batched M3U parser (internal/iptv/m3u.go). Items are handed to a handler in batches that share
one buffer; `ParseM3U` is the parser with a handler that keeps copies.
*/
module M3uStream {
  import opened Wrappers
  import opened Text
  import opened M3uAttributes
  import opened IptvRows

  const DEFAULT_MAX_ITEMS := 100_000
  const DEFAULT_BATCH_SIZE := 2_000
  const MAX_WARNINGS := 100
  const EXTM3U := "#EXTM3U"
  const EXTGRP := "#EXTGRP:"
  const BOM := "\U{FEFF}"

  datatype Options = Options(sourceId: string, sourceName: string, maxItems: int, batchSize: int)

  function Normalized(options: Options): (r: Options)
    ensures Trim(r.sourceId) != "" && 0 < r.maxItems && 0 < r.batchSize
    ensures Trim(options.sourceId) != "" ==> r.sourceId == options.sourceId
    ensures r.sourceName == options.sourceName || (Trim(options.sourceName) == "" && r.sourceName == r.sourceId)
    ensures 0 < options.maxItems ==> r.maxItems == options.maxItems
    ensures 0 < options.batchSize ==> r.batchSize == options.batchSize
  {
    var id := if Trim(options.sourceId) == "" then "source-local" else options.sourceId;
    assert Trim("source-local") == "source-local" by { TrimKeeps("source-local"); }
    Options(
      id,
      if Trim(options.sourceName) == "" then id else options.sourceName,
      if options.maxItems <= 0 then DEFAULT_MAX_ITEMS else options.maxItems,
      if options.batchSize <= 0 then DEFAULT_BATCH_SIZE else options.batchSize)
  }

  datatype WarningCode = MissingStream | InvalidExtinf(reason: ExtinfError) | OrphanStream

  datatype Warning = Warning(line: nat, code: WarningCode)

  datatype StreamError = TooManyItems | ReadFailed | HandlerFailed

  datatype Summary = Summary(total: nat, warnings: seq<Warning>)

  /** The lines a scanner yields, and whether it stopped with an error (I/O, or a line over the limit). */
  datatype Feed = Feed(lines: seq<string>, failed: bool)

  /** The parts of an item the parser takes from libraries: classification, episode numbers, the digest. */
  datatype Vocabulary = Vocabulary(
    classify: Entry -> (string, string),
    episode: string -> Episode,
    digest: string -> string,
    number: int -> string)

  function StableItemId(words: Vocabulary, sourceId: string, kind: string, identity: string): string {
    kind + "-" + words.digest(sourceId + "\0" + kind + "\0" + identity)
  }

  /** What identifies an entry: its own id, or its catalog metadata. The stream URL takes no part. */
  function Identity(words: Vocabulary, entry: Entry): string {
    if entry.id != "" then entry.id
    else
      var episode := words.episode(entry.name);
      entry.name + "\0" + entry.group + "\0" + entry.channel + "\0" + entry.language + "\0" + entry.country
      + "\0" + words.number(episode.season) + "\0" + words.number(episode.episode)
  }

  function BuildItem(words: Vocabulary, options: Options, entry: Entry, streamUrl: string): Item {
    var (kind, classification) := words.classify(entry);
    Item(
      StableItemId(words, options.sourceId, kind, Identity(words, entry)),
      options.sourceId, options.sourceName, kind, classification, entry.name, entry.group,
      entry.logoUrl, streamUrl, entry.id, entry.channel, entry.language, entry.country,
      words.episode(entry.name))
  }

  // ---------------------------------------------------------------- what the parser computes

  /** The parse so far. `full` is set when one more item than allowed was met. */
  datatype Parse = Parse(
    items: seq<Item>, pending: Option<Entry>, group: string, warnings: seq<Warning>, line: nat, full: bool)

  const START := Parse([], None, "", [], 0, false)

  datatype Line = Ignored | Info(text: string) | Group(name: string) | Url(text: string)

  /** How a line is read. */
  function Classified(raw: string): (r: Line)
    ensures r.Info? ==> |EXTINF| <= |r.text|
  {
    var line := Trim(if BOM <= raw then raw[1..] else raw);
    if line == "" || Upper(line) == EXTM3U then Ignored
    else if EXTINF <= Upper(line) then Info(line)
    else if EXTGRP <= Upper(line) then Group(Trim(line[|EXTGRP|..]))
    else if "#" <= line then Ignored
    else Url(line)
  }

  function Warned(warnings: seq<Warning>, warning: Warning): seq<Warning> {
    if |warnings| >= MAX_WARNINGS then warnings else warnings + [warning]
  }

  function AfterInfo(parse: Parse, text: string): Parse
    requires |EXTINF| <= |text|
  {
    var warnings :=
      if parse.pending.Some? then Warned(parse.warnings, Warning(parse.line, MissingStream)) else parse.warnings;
    match ParsedExtinf(text)
    case Err(reason) =>
      parse.(pending := None, warnings := Warned(warnings, Warning(parse.line, InvalidExtinf(reason))))
    case Ok(entry) =>
      var placed := if entry.group == "" then entry.(group := parse.group) else entry;
      parse.(pending := Some(placed), warnings := warnings)
  }

  function AfterGroup(parse: Parse, name: string): Parse {
    var pending :=
      if parse.pending.Some? && parse.pending.value.group == "" then Some(parse.pending.value.(group := name))
      else parse.pending;
    parse.(group := name, pending := pending)
  }

  function AfterUrl(words: Vocabulary, options: Options, parse: Parse, url: string): Parse {
    if parse.pending.None? then parse.(warnings := Warned(parse.warnings, Warning(parse.line, OrphanStream)))
    else if |parse.items| >= options.maxItems then parse.(full := true)
    else parse.(items := parse.items + [BuildItem(words, options, parse.pending.value, url)], pending := None)
  }

  function AfterLine(words: Vocabulary, options: Options, before: Parse, raw: string): Parse {
    if before.full then before
    else
      var parse := before.(line := before.line + 1);
      match Classified(raw)
      case Ignored => parse
      case Info(text) => AfterInfo(parse, text)
      case Group(name) => AfterGroup(parse, name)
      case Url(text) => AfterUrl(words, options, parse, text)
  }

  function ParseLines(words: Vocabulary, options: Options, lines: seq<string>): Parse {
    if lines == [] then START
    else AfterLine(words, options, ParseLines(words, options, lines[..|lines| - 1]), lines[|lines| - 1])
  }

  function FinalWarnings(parse: Parse): seq<Warning> {
    if parse.pending.Some? then Warned(parse.warnings, Warning(parse.line, MissingStream)) else parse.warnings
  }

  // ---------------------------------------------------------------- the handlers of the repository

  /** `ParseM3U` appends copies; the catalog import inserts rows and clears stream URLs in the batch. */
  datatype Mode = Collect | Insert(sourceId: string, stamp: string)

  class BatchHandler {
    const mode: Mode
    /** The position of the item whose INSERT fails, if any. */
    const failsAt: Option<nat>
    var items: seq<Item>
    var rows: Rows
    var handled: nat
    /** Every item handed over so far, as it was when handed over. */
    ghost var delivered: seq<Item>
    ghost var batchSizes: seq<nat>
    ghost const initialRows: Rows

    ghost predicate Valid()
      reads this
    {
      && handled == |delivered|
      && match mode
         case Collect => items == delivered && rows == initialRows
         case Insert(sourceId, stamp) => rows == UpsertAll(initialRows, delivered, sourceId, stamp, KeepAlways)
    }

    constructor (mode: Mode, rows: Rows, failsAt: Option<nat>)
      ensures Valid() && delivered == [] && batchSizes == [] && this.mode == mode
      ensures initialRows == rows && this.failsAt == failsAt
    {
      this.mode := mode;
      this.failsAt := failsAt;
      this.items := [];
      this.rows := rows;
      this.handled := 0;
      this.delivered := [];
      this.batchSizes := [];
      this.initialRows := rows;
    }

    /** Handles the first `count` items of a buffer that the caller will reuse. */
    method Handle(batch: array<Item>, count: nat) returns (ok: bool)
      requires Valid() && 0 < count <= batch.Length
      modifies this, batch
      ensures ok ==> Valid() && delivered == old(delivered) + old(batch[..count])
      ensures ok ==> batchSizes == old(batchSizes) + [count]
      ensures ok <==> mode.Insert? && failsAt.Some? ==> !(|old(delivered)| <= failsAt.value < |old(delivered)| + count)
    {
      hide UpsertAll, Upsert;
      ghost var handed := batch[..count];
      if mode.Collect? {
        items := items + batch[..count];
      } else {
        ok := InsertRows(batch, count);
        if !ok {
          return;
        }
        UpsertAllAppend(initialRows, delivered, handed, mode.sourceId, mode.stamp, KeepAlways);
      }
      handled := handled + count;
      delivered := delivered + handed;
      batchSizes := batchSizes + [count];
      return true;
    }

    method InsertRows(batch: array<Item>, count: nat) returns (ok: bool)
      requires Valid() && mode.Insert? && 0 < count <= batch.Length
      modifies this`rows, batch
      ensures ok <==> !(failsAt.Some? && handled <= failsAt.value < handled + count)
      ensures ok ==> rows == UpsertAll(old(rows), old(batch[..count]), mode.sourceId, mode.stamp, KeepAlways)
    {
      ghost var handed := batch[..count];
      var sourceId, stamp := mode.sourceId, mode.stamp;
      ghost var before := rows;
      hide *;
      ok := true;
      for i := 0 to count
        invariant ok && (failsAt.Some? ==> !(handled <= failsAt.value < handled + i))
        invariant forall k :: i <= k < count ==> batch[k] == handed[k]
        invariant rows == UpsertAll(before, handed[..i], sourceId, stamp, KeepAlways)
      {
        batch[i] := batch[i].(streamUrl := "");
        if failsAt == Some(handled + i) {
          return false;
        }
        StreamUrlNotStored(rows, handed[i], sourceId, stamp, KeepAlways);
        rows := Upsert(rows, batch[i], sourceId, stamp, KeepAlways);
        UpsertOneMore(before, handed[..i], handed[i], sourceId, stamp, KeepAlways);
        assert handed[..i + 1] == handed[..i] + [handed[i]];
      }
      assert handed[..count] == handed;
    }
  }

  // ---------------------------------------------------------------- the parser

  ghost predicate FullBatches(sizes: seq<nat>, batchSize: int) {
    forall i :: 0 <= i < |sizes| ==> sizes[i] == batchSize
  }

  /** All batches but the last are full, and the last one is not empty. */
  ghost predicate Batched(sizes: seq<nat>, batchSize: int) {
    || FullBatches(sizes, batchSize)
    || (|sizes| > 0 && FullBatches(sizes[..|sizes| - 1], batchSize) && 0 < sizes[|sizes| - 1] < batchSize)
  }

  /**
  The variables that the source's line loop and its `flush` closure share: the reused batch buffer
  with its fill count, the pending entry, the current group and the counters.
  */
  class LineLoop {
    const words: Vocabulary
    const options: Options
    const handler: BatchHandler
    const batch: array<Item>
    var count: nat
    var pending: Option<Entry>
    var currentGroup: string
    var lineNumber: nat
    var total: nat
    var warnings: seq<Warning>

    constructor (words: Vocabulary, options: Options, handler: BatchHandler)
      requires 0 < options.batchSize
      requires handler.Valid() && handler.delivered == [] && handler.batchSizes == []
      ensures fresh(this) && fresh(batch) && Valid() && View() == START
      ensures this.words == words && this.options == options && this.handler == handler
    {
      this.words, this.options, this.handler := words, options, handler;
      batch := new Item[options.batchSize];
      count, pending, currentGroup, lineNumber, total, warnings := 0, None, "", 0, 0, [];
    }

    ghost predicate Valid()
      reads this, handler, batch
    {
      && count < batch.Length == options.batchSize
      && total == |handler.delivered| + count
      && handler.Valid()
      && FullBatches(handler.batchSizes, options.batchSize)
      && (handler.mode.Insert? && handler.failsAt.Some? ==> |handler.delivered| <= handler.failsAt.value)
    }

    /** The parse this state stands for: the items handed over, followed by those still in the buffer. */
    ghost function View(): Parse
      requires Valid()
      reads this, handler, batch
    {
      Parse(handler.delivered + batch[..count], pending, currentGroup, warnings, lineNumber, false)
    }

    method Flush() returns (ok: bool)
      requires 0 < count <= batch.Length == options.batchSize && handler.Valid()
      modifies this`count, batch, handler
      ensures ok <==> handler.mode.Insert? && handler.failsAt.Some?
                      ==> !(|old(handler.delivered)| <= handler.failsAt.value < |old(handler.delivered)| + old(count))
      ensures ok ==> handler.Valid() && count == 0 && handler.delivered == old(handler.delivered + batch[..count])
      ensures ok ==> handler.batchSizes == old(handler.batchSizes) + [old(count)]
    {
      ok := handler.Handle(batch, count);
      count := 0;
    }

    /** An EXTINF line replaces the pending entry. */
    method StartEntry(text: string)
      requires Valid() && |EXTINF| <= |text|
      modifies this`pending, this`warnings
      ensures Valid() && View() == AfterInfo(old(View()), text)
    {
      hide ParsedExtinf, Warned, BatchHandler.Valid;
      if pending.Some? {
        warnings := Warned(warnings, Warning(lineNumber, MissingStream));
      }
      var entry := ParseExtinf(text);
      match entry
      case Err(reason) =>
        warnings := Warned(warnings, Warning(lineNumber, InvalidExtinf(reason)));
        pending := None;
      case Ok(value) =>
        pending := Some(if value.group == "" then value.(group := currentGroup) else value);
    }

    /** A stream URL completes the pending entry and may fill the batch. */
    method AddItem(url: string) returns (result: Option<StreamError>)
      requires Valid()
      modifies this, batch, handler
      ensures result.None? ==> Valid() && View() == AfterUrl(words, options, old(View()), url)
      ensures result == Some(TooManyItems) ==> AfterUrl(words, options, old(View()), url).full
      ensures result.Some? && result != Some(TooManyItems) ==>
                && handler.mode.Insert? && handler.failsAt.Some?
                && handler.failsAt.value < |AfterUrl(words, options, old(View()), url).items|
    {
      hide BuildItem, Warned, BatchHandler.Valid;
      if pending.None? {
        warnings := Warned(warnings, Warning(lineNumber, OrphanStream));
        return None;
      }
      if total >= options.maxItems {
        return Some(TooManyItems);
      }
      ghost var items := handler.delivered + batch[..count];
      batch[count] := BuildItem(words, options, pending.value, url);
      count := count + 1;
      pending := None;
      total := total + 1;
      assert handler.delivered + batch[..count] == items + [batch[count - 1]];
      if count >= options.batchSize {
        var ok := Flush();
        if !ok {
          return Some(HandlerFailed);
        }
      }
      return None;
    }

    method ReadLine(raw: string) returns (result: Option<StreamError>)
      requires Valid()
      modifies this, batch, handler
      ensures result.None? ==> Valid() && View() == AfterLine(words, options, old(View()), raw)
      ensures result == Some(TooManyItems) ==> AfterLine(words, options, old(View()), raw).full
      ensures result.Some? && result != Some(TooManyItems) ==>
                && handler.mode.Insert? && handler.failsAt.Some?
                && handler.failsAt.value < |AfterLine(words, options, old(View()), raw).items|
    {
      hide AfterInfo, AfterUrl, Classified, BatchHandler.Valid;
      lineNumber := lineNumber + 1;
      result := None;
      match Classified(raw)
      case Ignored =>
      case Info(text) => StartEntry(text);
      case Group(name) =>
        currentGroup := name;
        if pending.Some? && pending.value.group == "" {
          pending := Some(pending.value.(group := currentGroup));
        }
      case Url(line) => result := AddItem(line);
    }
  }

  /** How a parse with a given outcome and handler must end. */
  ghost predicate Refused(parse: Parse, feed: Feed, mode: Mode, failsAt: Option<nat>) {
    parse.full || feed.failed || (mode.Insert? && failsAt.Some? && failsAt.value < |parse.items|)
  }

  method ParseM3uStream(words: Vocabulary, feed: Feed, given: Options, handler: BatchHandler)
    returns (result: Result<Summary, StreamError>)
    requires handler.Valid() && handler.delivered == [] && handler.batchSizes == []
    modifies handler
    ensures var parse := ParseLines(words, Normalized(given), feed.lines);
            && (result.Err? <==> Refused(parse, feed, handler.mode, handler.failsAt))
            && (result.Ok? ==> result.value == Summary(|parse.items|, FinalWarnings(parse)))
            && (result.Ok? ==> handler.Valid() && handler.delivered == parse.items)
            && (result.Ok? ==> Batched(handler.batchSizes, Normalized(given).batchSize))
  {
    hide Normalized, AfterLine, BatchHandler.Valid;
    var options := Normalized(given);
    var loop := new LineLoop(words, options, handler);
    for index := 0 to |feed.lines|
      invariant fresh(loop) && fresh(loop.batch) && loop.words == words && loop.options == options
      invariant loop.handler == handler
      invariant loop.Valid() && loop.View() == ParseLines(words, options, feed.lines[..index])
    {
      ParseStep(words, options, feed.lines, index);
      var stopped := loop.ReadLine(feed.lines[index]);
      if stopped.Some? {
        if stopped.value == TooManyItems {
          StaysFull(words, options, feed.lines, index + 1);
        } else {
          ItemsGrow(words, options, feed.lines, index + 1);
        }
        return Err(stopped.value);
      }
    }
    assert feed.lines[..|feed.lines|] == feed.lines;
    result := Finish(loop, feed);
  }

  /** The end of the parse: the last warning, the scanner's error, the last batch. */
  method Finish(loop: LineLoop, feed: Feed) returns (result: Result<Summary, StreamError>)
    requires loop.Valid()
    modifies loop, loop.batch, loop.handler
    ensures var parse := old(loop.View());
            && (result.Err? <==> Refused(parse, feed, loop.handler.mode, loop.handler.failsAt))
            && (result.Ok? ==> result.value == Summary(|parse.items|, FinalWarnings(parse)))
            && (result.Ok? ==> loop.handler.Valid() && loop.handler.delivered == parse.items)
            && (result.Ok? ==> Batched(loop.handler.batchSizes, loop.options.batchSize))
  {
    hide Warned, BatchHandler.Valid;
    if loop.pending.Some? {
      loop.warnings := Warned(loop.warnings, Warning(loop.lineNumber, MissingStream));
    }
    if feed.failed {
      return Err(ReadFailed);
    }
    if loop.count > 0 {
      ghost var sizes := loop.handler.batchSizes;
      var ok := loop.Flush();
      if !ok {
        return Err(HandlerFailed);
      }
      assert loop.handler.batchSizes[..|sizes|] == sizes;
    }
    return Ok(Summary(loop.total, loop.warnings));
  }

  lemma ParseStep(words: Vocabulary, options: Options, lines: seq<string>, index: nat)
    requires index < |lines|
    ensures ParseLines(words, options, lines[..index + 1])
            == AfterLine(words, options, ParseLines(words, options, lines[..index]), lines[index])
  {
    assert lines[..index + 1][..index] == lines[..index];
  }

  /** Once the item limit is hit the parse stands still. */
  lemma {:induction false} StaysFull(words: Vocabulary, options: Options, lines: seq<string>, index: nat)
    requires index <= |lines| && ParseLines(words, options, lines[..index]).full
    ensures ParseLines(words, options, lines) == ParseLines(words, options, lines[..index])
    decreases |lines|
  {
    if index == |lines| {
      assert lines[..index] == lines;
    } else {
      var front := lines[..|lines| - 1];
      assert front[..index] == lines[..index];
      StaysFull(words, options, front, index);
    }
  }

  /** Items are only ever appended. */
  lemma {:induction false} ItemsGrow(words: Vocabulary, options: Options, lines: seq<string>, index: nat)
    requires index <= |lines|
    ensures ParseLines(words, options, lines[..index]).items <= ParseLines(words, options, lines).items
    decreases |lines|
  {
    hide ParsedExtinf, Classified, BuildItem;
    if index == |lines| {
      assert lines[..index] == lines;
    } else {
      var front := lines[..|lines| - 1];
      assert front[..index] == lines[..index];
      ItemsGrow(words, options, front, index);
    }
  }

  /** `ParseM3U`: all items of the playlist, or nothing. */
  method ParseM3u(words: Vocabulary, feed: Feed, given: Options)
    returns (result: Result<(seq<Item>, seq<Warning>), StreamError>)
    ensures var parse := ParseLines(words, Normalized(given), feed.lines);
            && (result.Ok? <==> !parse.full && !feed.failed)
            && (result.Ok? ==> result.value == (parse.items, FinalWarnings(parse)))
  {
    var handler := new BatchHandler(Collect, map[], None);
    var parsed := ParseM3uStream(words, feed, given, handler);
    match parsed
    case Err(error) => return Err(error);
    case Ok(summary) => return Ok((handler.items, summary.warnings));
  }

  // ---------------------------------------------------------------- laws of the parse

  /** A smaller item limit changes one thing only: it stops the parse when there are more items than it allows. */
  lemma {:induction false} LimitOnly(words: Vocabulary, small: Options, large: Options, lines: seq<string>)
    requires 0 < small.maxItems <= large.maxItems
    requires small.sourceId == large.sourceId && small.sourceName == large.sourceName
    ensures var s, l := ParseLines(words, small, lines), ParseLines(words, large, lines);
            && (s.full <==> l.full || small.maxItems < |l.items|)
            && (!s.full ==> s == l)
  {
    hide ParsedExtinf, Classified, BuildItem, Warned;
    if lines != [] {
      var front := lines[..|lines| - 1];
      LimitOnly(words, small, large, front);
      LimitStep(words, small, large, ParseLines(words, small, front), ParseLines(words, large, front),
        lines[|lines| - 1]);
    }
  }

  lemma LimitStep(words: Vocabulary, small: Options, large: Options, s: Parse, l: Parse, line: string)
    requires 0 < small.maxItems <= large.maxItems
    requires small.sourceId == large.sourceId && small.sourceName == large.sourceName
    requires (s.full <==> l.full || small.maxItems < |l.items|) && (!s.full ==> s == l)
    ensures var s', l' := AfterLine(words, small, s, line), AfterLine(words, large, l, line);
            && (s'.full <==> l'.full || small.maxItems < |l'.items|)
            && (!s'.full ==> s' == l')
  {
    hide ParsedExtinf, Classified, Warned, Identity;
  }

  /** Every parsed item belongs to the source and carries an id that is not blank. */
  lemma {:induction false} ItemsBelong(words: Vocabulary, options: Options, lines: seq<string>)
    ensures forall item :: item in ParseLines(words, options, lines).items ==>
              item.sourceId == options.sourceId && Trim(item.id) != ""
  {
    hide ParsedExtinf, Classified, Trim, BuildItem;
    if lines != [] {
      ItemsBelong(words, options, lines[..|lines| - 1]);
      var parse := ParseLines(words, options, lines[..|lines| - 1]);
      forall entry, url ensures BuildItem(words, options, entry, url).sourceId == options.sourceId
                             && Trim(BuildItem(words, options, entry, url).id) != "" {
        BuiltItemBelongs(words, options, entry, url);
      }
    }
  }

  lemma BuiltItemBelongs(words: Vocabulary, options: Options, entry: Entry, url: string)
    ensures BuildItem(words, options, entry, url).sourceId == options.sourceId
    ensures Trim(BuildItem(words, options, entry, url).id) != ""
  {
    var (kind, _) := words.classify(entry);
    DashIsNotBlank(kind, words.digest(options.sourceId + "\0" + kind + "\0" + Identity(words, entry)));
    hide Trim, Identity;
  }

  lemma DashIsNotBlank(a: string, b: string)
    ensures Trim(a + "-" + b) != ""
  {
    var s := a + "-" + b;
    TrimSplits(s);
    assert s[|a|] == '-';
  }

  /** Rotating the stream URLs of a playlist changes no item id: an id is catalog metadata only. */
  lemma IdIgnoresStreamUrl(words: Vocabulary, options: Options, entry: Entry, url: string, rotated: string)
    ensures BuildItem(words, options, entry, url).(streamUrl := rotated) == BuildItem(words, options, entry, rotated)
    ensures DetailsOf(BuildItem(words, options, entry, url)) == DetailsOf(BuildItem(words, options, entry, rotated))
  {
  }
}
