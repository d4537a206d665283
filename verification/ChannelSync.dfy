/**
Incremental channel synchronization (internal/sync/service.go): each refresh fetches the newest uploads of a
channel down to the last one known, stores them, and only then moves the channel's marker to the newest.
*/
module ChannelSync {
  import opened Wrappers
  import opened Sequences

  /** internal/sync/rss.go stops after this many videos. */
  const FEED_WINDOW := 15

  /** An entry of a channel's feed. */
  datatype FeedEntry = FeedEntry(videoId: string, id: string)

  /** The text behind the last colon, or nothing when there is no colon. */
  function BehindColon(s: string): (r: string)
    ensures ':' !in r && |r| <= |s| && r == s[|s| - |r|..] && (':' in s ==> |r| < |s| && s[|s| - |r| - 1] == ':')
  {
    if ':' !in s then ""
    else if s[|s| - 1] == ':' then ""
    else BehindColon(s[..|s| - 1]) + [s[|s| - 1]]
  }

  /** The id of an entry, if it has one: its own, or what the entry's id ends in. */
  function IdOf(entry: FeedEntry): seq<string> {
    var id := if entry.videoId == "" then BehindColon(entry.id) else entry.videoId;
    if id == "" then [] else [id]
  }

  /** An entry's own id counts; without one, what stands behind the last colon of the entry's id, if anything. */
  lemma EntryIds(own: string, front: string, last: string)
    requires ':' !in last
    ensures own != "" ==> IdOf(FeedEntry(own, front)) == [own]
    ensures IdOf(FeedEntry("", front + ":" + last)) == if last == "" then [] else [last]
    ensures IdOf(FeedEntry("", last)) == []
  {
    BehindLastColon(front, last);
  }

  lemma {:induction false} BehindLastColon(front: string, last: string)
    requires ':' !in last
    ensures BehindColon(front + ":" + last) == last
  {
    var s := front + ":" + last;
    assert s[|front|] == ':';
    if last != "" {
      var n := |last| - 1;
      BehindLastColon(front, last[..n]);
      assert s[..|s| - 1] == front + ":" + last[..n];
      assert s[|s| - 1] == last[n] && last == last[..n] + [last[n]];
    }
  }

  /** The loop of `FetchChannelFeed`: the first videos of the feed that have an id. */
  method FetchChannelFeed(entries: seq<FeedEntry>) returns (out: seq<string>)
    ensures var all := FlatMap(IdOf, entries);
            out == if |all| < FEED_WINDOW then all else all[..FEED_WINDOW]
  {
    out := [];
    for i := 0 to |entries|
      invariant out == FlatMap(IdOf, entries[..i]) && |out| < FEED_WINDOW
    {
      FlatMapStep(IdOf, entries, i);
      var id := entries[i].videoId;
      if id == "" {
        id := BehindColon(entries[i].id);
      }
      if id == "" {
        continue;
      }
      out := out + [id];
      if |out| >= FEED_WINDOW {
        assert entries == entries[..i + 1] + entries[i + 1..];
        FlatMapAppend(IdOf, entries[..i + 1], entries[i + 1..]);
        return;
      }
    }
    assert entries[..|entries|] == entries;
  }

  /** The videos, newest first, before the marker; all of them when there is no marker or it is not among them. */
  function UpTo(videos: seq<string>, marker: string): seq<string> {
    if videos == [] || (marker != "" && videos[0] == marker) then [] else [videos[0]] + UpTo(videos[1..], marker)
  }

  lemma {:induction false} UpToMeaning(videos: seq<string>, marker: string)
    ensures var out := UpTo(videos, marker);
            && out <= videos && (marker != "" ==> marker !in out)
            && (out != videos ==> marker != "" && videos[|out|] == marker)
  {
    if videos != [] {
      UpToMeaning(videos[1..], marker);
    }
  }

  lemma {:induction false} UpToSplit(a: seq<string>, b: seq<string>, marker: string)
    ensures UpTo(a + b, marker) == if marker != "" && marker in a then UpTo(a, marker) else a + UpTo(b, marker)
  {
    if a == [] {
      assert a + b == b;
    } else {
      assert (a + b)[1..] == a[1..] + b;
      UpToSplit(a[1..], b, marker);
      assert [a[0]] + (a[1..] + UpTo(b, marker)) == a + UpTo(b, marker);
    }
  }

  lemma {:induction false} UpToWhole(a: seq<string>, marker: string)
    ensures UpTo(a, marker) == a <==> marker == "" || marker !in a
  {
    if a != [] {
      UpToWhole(a[1..], marker);
    }
  }

  datatype SyncError = FeedFailed | NoPlaylist | ApiFailed

  /** `syncChannelLocal`, given what the feed returned */
  method SyncChannelLocal(feed: Result<seq<string>, SyncError>, marker: string)
    returns (result: Result<seq<string>, SyncError>)
    ensures result == if feed.Err? then feed else Ok(UpTo(feed.value, marker))
  {
    if feed.Err? {
      return feed;
    }
    var videos := feed.value;
    var out: seq<string> := [];
    for i := 0 to |videos|
      invariant out == videos[..i] && (marker == "" || marker !in out)
    {
      assert videos == videos[..i] + videos[i..];
      UpToSplit(videos[..i], videos[i..], marker);
      if marker != "" && videos[i] == marker {
        assert out + [] == out;
        return Ok(out);
      }
      out := out + [videos[i]];
    }
    UpToWhole(videos, marker);
    assert videos[..|videos|] == videos;
    return Ok(out);
  }

  /** One page of the API's list of uploads; no token means there is no further page. */
  datatype Page = Page(videos: seq<string>, next: string)

  type Pages = nat -> Result<Page, SyncError>

  /** The videos of the first `count` pages. */
  function Listed(pages: Pages, count: nat): seq<string>
    requires forall i :: 0 <= i < count ==> pages(i).Ok?
  {
    if count == 0 then [] else Listed(pages, count - 1) + pages(count - 1).value.videos
  }

  /** Whether page `count` is asked for: those before it arrived, named a next one, and did not hold the marker. */
  ghost predicate AsksFor(pages: Pages, count: nat, marker: string) {
    && (forall i :: 0 <= i < count ==> pages(i).Ok? && pages(i).value.next != "")
    && (marker == "" || marker !in Listed(pages, count))
  }

  /**
  The result when `asked` pages were asked for: the error of the last one, or everything before the marker on
  all of them; and no further page was due.
  */
  ghost predicate IsSynced(
    pages: Pages, maxPages: nat, marker: string, asked: nat, result: Result<seq<string>, SyncError>) {
    && asked <= maxPages && (forall count :: 0 <= count < asked ==> AsksFor(pages, count, marker))
    && match result
       case Err(error) => asked > 0 && pages(asked - 1) == Err(error)
       case Ok(videos) =>
         && (forall i :: 0 <= i < asked ==> pages(i).Ok?)
         && videos == UpTo(Listed(pages, asked), marker)
         && (asked == maxPages || !AsksFor(pages, asked, marker))
  }

  /**
  `syncChannel`: pages are asked for until the marker is found, there is no further page or `maxPages` is reached.
  */
  method SyncChannel(playlist: string, pages: Pages, maxPages: nat, marker: string)
    returns (result: Result<seq<string>, SyncError>)
    ensures if playlist == "" then result == Err(NoPlaylist)
        else exists asked :: IsSynced(pages, maxPages, marker, asked, result)
  {
    hide AsksFor, Listed, UpTo;
    ghost var asked := 0;
    if playlist == "" {
      return Err(NoPlaylist);
    }
    var out: seq<string> := [];
    NothingListed(pages, marker);
    for page := 0 to maxPages
      invariant asked == page && forall count :: 0 <= count <= page ==> AsksFor(pages, count, marker)
      invariant forall i :: 0 <= i < page ==> pages(i).Ok?
      invariant out == Listed(pages, page) == UpTo(Listed(pages, page), marker)
    {
      asked := page + 1;
      if pages(page).Err? {
        result := Err(pages(page).error);
        assert IsSynced(pages, maxPages, marker, asked, result);
        return;
      }
      var videos := pages(page).value.videos;
      var found := UpToMarker(videos, marker);
      PageRead(pages, page, marker);
      if |found| < |videos| {
        result := Ok(out + found);
        assert IsSynced(pages, maxPages, marker, asked, result);
        return;
      }
      out := out + found;
      if pages(page).value.next == "" {
        result := Ok(out);
        assert IsSynced(pages, maxPages, marker, asked, result);
        return;
      }
    }
    result := Ok(out);
    assert IsSynced(pages, maxPages, marker, asked, result);
  }

  /** How many pages are asked for, and with it the result, is determined. */
  lemma SyncedOnce(
    pages: Pages, maxPages: nat, marker: string, a: nat, b: nat, r: Result<seq<string>, SyncError>,
    q: Result<seq<string>, SyncError>)
    requires IsSynced(pages, maxPages, marker, a, r) && IsSynced(pages, maxPages, marker, b, q)
    ensures a == b && r == q
  {
    hide AsksFor, UpTo, Listed;
    StopsAtError(pages, maxPages, marker, a, r);
    StopsAtError(pages, maxPages, marker, b, q);
  }

  lemma StopsAtError(pages: Pages, maxPages: nat, marker: string, asked: nat, result: Result<seq<string>, SyncError>)
    requires IsSynced(pages, maxPages, marker, asked, result)
    ensures asked < maxPages ==> !AsksFor(pages, asked, marker)
  {
    hide UpTo, Listed;
  }

  lemma NothingListed(pages: Pages, marker: string)
    ensures AsksFor(pages, 0, marker) && Listed(pages, 0) == [] == UpTo(Listed(pages, 0), marker)
  {
  }

  /** What one more page adds, and when a further one is asked for. */
  lemma PageRead(pages: Pages, page: nat, marker: string)
    requires AsksFor(pages, page, marker) && (forall i :: 0 <= i <= page ==> pages(i).Ok?)
    ensures var videos, listed := pages(page).value.videos, Listed(pages, page);
            && UpTo(listed, marker) == listed && UpTo(Listed(pages, page + 1), marker) == listed + UpTo(videos, marker)
            && (AsksFor(pages, page + 1, marker) <==>
                 pages(page).value.next != "" && |UpTo(videos, marker)| == |videos|)
            && (|UpTo(videos, marker)| == |videos| ==> Listed(pages, page + 1) == listed + UpTo(videos, marker))
  {
    var videos, listed := pages(page).value.videos, Listed(pages, page);
    UpToWhole(listed, marker);
    UpToSplit(listed, videos, marker);
    UpToMeaning(videos, marker);
    UpToWhole(videos, marker);
    assert Listed(pages, page + 1) == listed + videos;
  }

  /** The inner loop over one page. */
  method UpToMarker(videos: seq<string>, marker: string) returns (out: seq<string>)
    ensures out == UpTo(videos, marker) && out <= videos
  {
    var local := SyncChannelLocal(Ok(videos), marker);
    UpToMeaning(videos, marker);
    return local.value;
  }

  /** How one refresh of a channel ends. */
  datatype Outcome = FetchFailed | UpsertFailed | MarkerFailed | Succeeded

  /** What a refresh leaves of a channel's stored videos and marker. */
  datatype Stored = Stored(catalog: set<string>, marker: string)

  function Refreshed(stored: Stored, videos: seq<string>, outcome: Outcome): Stored {
    if outcome.FetchFailed? || videos == [] || outcome.UpsertFailed? then stored
    else
      var catalog := stored.catalog + set v | v in videos;
      if outcome.MarkerFailed? then Stored(catalog, stored.marker) else Stored(catalog, videos[0])
  }

  class SyncStore {
    var catalogs: map<string, set<string>>
    var markers: map<string, string>
    var errors: map<string, string>

    constructor ()
      ensures forall channel :: StoredOf(channel) == Stored({}, "")
    {
      catalogs, markers, errors := map[], map[], map[];
    }

    function StoredOf(channel: string): Stored
      reads this
    {
      Stored(if channel in catalogs then catalogs[channel] else {}, if channel in markers then markers[channel] else "")
    }

    method UpsertVideos(channel: string, videos: seq<string>, broken: bool) returns (done: bool)
      modifies this`catalogs
      ensures done == !broken && errors == old(errors)
      ensures forall other ::
          StoredOf(other) ==
          if other == channel && done
          then Stored(old(StoredOf(other)).catalog + set v | v in videos, old(StoredOf(other)).marker)
          else old(StoredOf(other))
    {
      if !broken {
        catalogs := catalogs[channel := (if channel in catalogs then catalogs[channel] else {}) + set v | v in videos];
      }
      return !broken;
    }

    method SetChannelSync(channel: string, marker: string, error: string, broken: bool) returns (done: bool)
      modifies this`markers, this`errors
      ensures done == !broken
      ensures forall other ::
          StoredOf(other) ==
          if other == channel && done then old(StoredOf(other)).(marker := marker) else old(StoredOf(other))
      ensures errors == if done then old(errors)[channel := error] else old(errors)
    {
      if !broken {
        markers := markers[channel := marker];
        errors := errors[channel := error];
      }
      return !broken;
    }

    /**
    What `Refresh` and `RefreshLocal` do for one channel with the result of its synchronization: videos first, then
    the marker; a failed fetch writes the old marker back with the error.
    */
    method RefreshChannel(
      channel: string, fetched: Result<seq<string>, SyncError>, upsertBroken: bool, markerBroken: bool)
      returns (outcome: Outcome)
      modifies this
      ensures StoredOf(channel) == Refreshed(old(StoredOf(channel)), if fetched.Ok? then fetched.value else [], outcome)
      ensures forall other :: other != channel ==> StoredOf(other) == old(StoredOf(other))
      ensures errors == if fetched.Err? && !markerBroken then old(errors)[channel := "error"]
                        else if fetched.Ok? && fetched.value != [] && outcome == Succeeded
                        then old(errors)[channel := ""]
                        else old(errors)
      ensures outcome == if fetched.Err? then FetchFailed else if fetched.value == [] then Succeeded
                         else if upsertBroken then UpsertFailed else if markerBroken then MarkerFailed else Succeeded
    {
      var marker := StoredOf(channel).marker;
      var videos := if fetched.Ok? then fetched.value else [];
      if |videos| > 0 {
        var stored := UpsertVideos(channel, videos, upsertBroken);
        if !stored {
          return UpsertFailed;
        }
      }
      if fetched.Err? {
        var kept := SetChannelSync(channel, marker, "error", markerBroken);
        return FetchFailed;
      } else if |videos| > 0 {
        var moved := SetChannelSync(channel, videos[0], "", markerBroken);
        if !moved {
          return MarkerFailed;
        }
      }
      return Succeeded;
    }
  }

  /**
  One goroutine of `RefreshLocal`: what a refresh of a channel leaves depends on its feed and its own marker only.
  */
  method RefreshLocalChannel(
    store: SyncStore, channel: string, feed: Result<seq<string>, SyncError>, upsertBroken: bool, markerBroken: bool)
    returns (outcome: Outcome)
    modifies store
    ensures var before := old(store.StoredOf(channel));
            var found := if feed.Ok? then UpTo(feed.value, before.marker) else [];
            store.StoredOf(channel) == Refreshed(before, found, outcome)
    ensures forall other :: other != channel ==> store.StoredOf(other) == old(store.StoredOf(other))
    ensures feed.Err? <==> outcome.FetchFailed?
  {
    var fetched := SyncChannelLocal(feed, store.StoredOf(channel).marker);
    outcome := store.RefreshChannel(channel, fetched, upsertBroken, markerBroken);
  }

  /**
  A channel over time: its uploads from the oldest on, what is stored, and, as history, where the first synced
  window began.
  */
  datatype Channel = Channel(uploads: seq<string>, stored: Stored, first: Option<nat>)

  /** Between two steps, somebody publishes, or a refresh ends in some way; it sees the newest `window` uploads. */
  datatype Step = Publish(id: string) | Refresh(outcome: Outcome)

  function Newest(uploads: seq<string>, count: nat): (feed: seq<string>)
    ensures |feed| == (if count < |uploads| then count else |uploads|) && forall i :: 0 <= i < |feed| ==>
        feed[i] == uploads[|uploads| - 1 - i]
  {
    var n := if count < |uploads| then count else |uploads|;
    seq(n, i requires 0 <= i < n => uploads[|uploads| - 1 - i])
  }

  predicate CanTake(c: Channel, step: Step) {
    step.Publish? ==> step.id != "" && step.id !in c.uploads
  }

  function Take(c: Channel, step: Step, window: nat): Channel {
    match step
    case Publish(id) => c.(uploads := c.uploads + [id])
    case Refresh(outcome) =>
      var found := UpTo(Newest(c.uploads, window), c.stored.marker);
      var stored := Refreshed(c.stored, found, outcome);
      UpToMeaning(Newest(c.uploads, window), c.stored.marker);
      var began: nat := |c.uploads| - |found|;
      c.(stored := stored, first := if c.first.None? && stored.marker != "" then Some(began) else c.first)
  }

  /** How many uploads the marker has behind it, itself included; 0 when there is none. */
  ghost predicate MarkerIsAt(c: Channel, count: nat) {
    if c.stored.marker == "" then count == 0 else 0 < count <= |c.uploads| && c.uploads[count - 1] == c.stored.marker
  }

  ghost predicate AreUploads(uploads: seq<string>) {
    && "" !in uploads
    && forall i, j :: 0 <= i < j < |uploads| ==> uploads[i] != uploads[j]
  }

  /** The marker is an upload that is stored; once there is one, the first window is known to lie before it. */
  ghost predicate Inv(c: Channel, count: nat) {
    && AreUploads(c.uploads) && MarkerIsAt(c, count)
    && (c.first.None? <==> c.stored.marker == "")
    && (c.first.Some? ==> c.first.value < count && c.stored.marker in c.stored.catalog)
  }

  /** Everything from the first synced window up to the marker is stored. */
  ghost predicate HoldsAll(c: Channel, count: nat) {
    c.first.Some? ==> forall i :: c.first.value <= i < count && i < |c.uploads| ==> c.uploads[i] in c.stored.catalog
  }

  /** What a refresh finds: the uploads behind the marker, as far as the window reaches. */
  lemma FindsBehindMarker(c: Channel, count: nat, window: nat)
    requires AreUploads(c.uploads) && MarkerIsAt(c, count)
    ensures var found, n := UpTo(Newest(c.uploads, window), c.stored.marker), |c.uploads|;
            && count <= n && |found| == (if window < n - count then window else n - count)
            && found == Newest(c.uploads, |found|)
  {
    var feed, n := Newest(c.uploads, window), |c.uploads|;
    UpToMeaning(feed, c.stored.marker);
    var found := UpTo(feed, c.stored.marker);
    var behind := if window < n - count then window else n - count;
    assert |found| < |feed| ==> c.uploads[n - 1 - |found|] == c.stored.marker;
    assert behind < |feed| ==> feed[behind] == c.stored.marker;
    assert found == Newest(c.uploads, |found|);
  }

  /** The found uploads are exactly those behind the marker that the window reaches, the newest first. */
  lemma FoundAre(c: Channel, count: nat, window: nat, v: string)
    requires AreUploads(c.uploads) && MarkerIsAt(c, count)
    ensures var found := UpTo(Newest(c.uploads, window), c.stored.marker);
            && (v in found <==> exists i :: count <= i < |c.uploads| && |c.uploads| - window <= i && c.uploads[i] == v)
            && (found != [] ==> c.uploads != [] && found[0] == c.uploads[|c.uploads| - 1])
            && (found == [] <==> count == |c.uploads| || window == 0)
  {
    hide UpTo, AreUploads;
    FindsBehindMarker(c, count, window);
    var n, found := |c.uploads|, UpTo(Newest(c.uploads, window), c.stored.marker);
    if v in found {
      var k :| 0 <= k < |found| && found[k] == v;
      assert c.uploads[n - 1 - k] == v;
    }
    if i :| count <= i < n && n - window <= i && c.uploads[i] == v {
      assert found[n - 1 - i] == v;
    }
  }

  /**
  A refresh that succeeds moves the marker to the newest upload, a failed one leaves it; the marker is always
  stored.
  */
  lemma RefreshKeepsInv(c: Channel, count: nat, outcome: Outcome, window: nat)
    requires Inv(c, count) && window > 0
    ensures Inv(Take(c, Refresh(outcome), window), if outcome.Succeeded? then |c.uploads| else count)
  {
    hide UpTo, AreUploads, Newest;
    FoundAre(c, count, window, "");
    FindsBehindMarker(c, count, window);
    LastIsNamed(c.uploads);
  }

  lemma LastIsNamed(uploads: seq<string>)
    requires AreUploads(uploads)
    ensures uploads != [] ==> uploads[|uploads| - 1] != ""
  {
  }

  /** What a refresh stores: nothing is dropped, and what comes in are uploads behind the marker within the window. */
  lemma RefreshStores(c: Channel, count: nat, outcome: Outcome, window: nat, v: string)
    requires Inv(c, count) && window > 0
    ensures var c' := Take(c, Refresh(outcome), window);
            v in c'.stored.catalog <==>
            || v in c.stored.catalog
            || ((outcome.Succeeded? || outcome.MarkerFailed?)
                && exists i :: count <= i < |c.uploads| && |c.uploads| - window <= i && c.uploads[i] == v)
  {
    hide UpTo, AreUploads, Newest;
    FoundAre(c, count, window, v);
  }

  /** Publishing changes neither the marker nor what is stored. */
  lemma PublishKeepsInv(c: Channel, count: nat, id: string, window: nat)
    requires Inv(c, count) && CanTake(c, Publish(id))
    ensures Inv(Take(c, Publish(id), window), count)
  {
  }

  predicate CanRun(c: Channel, steps: seq<Step>, window: nat)
    decreases |steps|
  {
    steps == [] || (CanTake(c, steps[0]) && CanRun(Take(c, steps[0], window), steps[1..], window))
  }

  function Run(c: Channel, steps: seq<Step>, window: nat): Channel
    requires CanRun(c, steps, window)
    decreases |steps|
  {
    if steps == [] then c else Run(Take(c, steps[0], window), steps[1..], window)
  }

  /** Where the marker stands after a step. */
  function CountAfter(c: Channel, count: nat, step: Step): nat {
    if step.Refresh? && step.outcome.Succeeded? then |c.uploads| else count
  }

  function RunCount(c: Channel, count: nat, steps: seq<Step>, window: nat): nat
    requires CanRun(c, steps, window)
    decreases |steps|
  {
    if steps == [] then count
      else RunCount(Take(c, steps[0], window), CountAfter(c, count, steps[0]), steps[1..], window)
  }

  /** At every successful refresh but the first, at most one window of uploads lies behind the marker. */
  predicate KeepsPace(c: Channel, count: nat, steps: seq<Step>, window: nat)
    requires CanRun(c, steps, window)
    decreases |steps|
  {
    steps != [] ==>
      && (steps[0] == Refresh(Succeeded) && c.first.Some? ==> |c.uploads| - count <= window)
      && KeepsPace(Take(c, steps[0], window), CountAfter(c, count, steps[0]), steps[1..], window)
  }

  lemma StepKeepsInv(c: Channel, count: nat, step: Step, window: nat)
    requires Inv(c, count) && window > 0 && CanTake(c, step)
    ensures Inv(Take(c, step, window), CountAfter(c, count, step))
  {
    hide Inv;
    match step
    case Publish(id) => PublishKeepsInv(c, count, id, window);
    case Refresh(outcome) => RefreshKeepsInv(c, count, outcome, window);
  }

  /** In every run, the marker is never ahead of what is stored. */
  lemma {:induction false} MarkerIsStored(c: Channel, count: nat, steps: seq<Step>, window: nat)
    requires CanRun(c, steps, window) && Inv(c, count) && window > 0
    ensures var c' := Run(c, steps, window);
            && Inv(c', RunCount(c, count, steps, window))
            && (c'.stored.marker != "" ==> c'.stored.marker in c'.stored.catalog && c'.stored.marker in c'.uploads)
    decreases |steps|
  {
    hide AreUploads, Take, CanTake;
    if steps != [] {
      StepKeepsInv(c, count, steps[0], window);
      MarkerIsStored(Take(c, steps[0], window), CountAfter(c, count, steps[0]), steps[1..], window);
    }
  }

  lemma StepHoldsAll(c: Channel, count: nat, step: Step, window: nat)
    requires Inv(c, count) && HoldsAll(c, count) && window > 0 && CanTake(c, step)
    requires step == Refresh(Succeeded) && c.first.Some? ==> |c.uploads| - count <= window
    ensures HoldsAll(Take(c, step, window), CountAfter(c, count, step))
  {
    var c', count' := Take(c, step, window), CountAfter(c, count, step);
    if step.Refresh? {
      hide Take, UpTo, Newest, AreUploads;
      FirstWindow(c, count, step.outcome, window);
      if c'.first.Some? {
        forall i | c'.first.value <= i < count' && i < |c'.uploads| ensures c'.uploads[i] in c'.stored.catalog {
          RefreshStores(c, count, step.outcome, window, c.uploads[i]);
        }
      }
    }
  }

  /** The first window begins with the oldest upload it reaches. */
  lemma FirstWindow(c: Channel, count: nat, outcome: Outcome, window: nat)
    requires Inv(c, count)
    ensures var c' := Take(c, Refresh(outcome), window);
            && c'.uploads == c.uploads && (c.first.Some? ==> c'.first == c.first)
            && (c.first.None? && c'.first.Some? ==>
                 outcome.Succeeded? && count == 0 && |c.uploads| - window <= c'.first.value)
  {
    hide UpTo, Newest, AreUploads;
    FindsBehindMarker(c, count, window);
  }

  /**
  In every run of successful and failed refreshes in which the channel never publishes more than one window between two
  successful ones, every upload from the first synced window up to the marker is stored.
  */
  lemma {:induction false} NothingIsMissed(c: Channel, count: nat, steps: seq<Step>, window: nat)
    requires CanRun(c, steps, window) && Inv(c, count) && HoldsAll(c, count) && window > 0
    requires KeepsPace(c, count, steps, window)
    ensures HoldsAll(Run(c, steps, window), RunCount(c, count, steps, window))
    decreases |steps|
  {
    hide Inv, HoldsAll, Take, CanTake;
    if steps != [] {
      StepKeepsInv(c, count, steps[0], window);
      StepHoldsAll(c, count, steps[0], window);
      NothingIsMissed(Take(c, steps[0], window), CountAfter(c, count, steps[0]), steps[1..], window);
    }
  }

  /** Right after a successful refresh, that is every upload since the first synced window. */
  lemma SyncedUpToNow(c: Channel, count: nat, steps: seq<Step>, window: nat, i: nat)
    requires CanRun(c, steps + [Refresh(Succeeded)], window) && Inv(c, count) && HoldsAll(c, count) && window > 0
    requires KeepsPace(c, count, steps + [Refresh(Succeeded)], window)
    requires
      var c' := Run(c, steps + [Refresh(Succeeded)], window);
      c'.first.Some? && c'.first.value <= i < |c'.uploads|
    ensures var c' := Run(c, steps + [Refresh(Succeeded)], window); c'.uploads[i] in c'.stored.catalog
  {
    NothingIsMissed(c, count, steps + [Refresh(Succeeded)], window);
    EndsAtNewest(c, count, steps, window);
  }

  lemma {:induction false} EndsAtNewest(c: Channel, count: nat, steps: seq<Step>, window: nat)
    requires CanRun(c, steps + [Refresh(Succeeded)], window)
    ensures RunCount(c, count, steps + [Refresh(Succeeded)], window)
        == |Run(c, steps + [Refresh(Succeeded)], window).uploads|
    decreases |steps|
  {
    hide CanTake;
    var all := steps + [Refresh(Succeeded)];
    if steps == [] {
      assert all[1..] == [];
    } else {
      assert all[0] == steps[0] && all[1..] == steps[1..] + [Refresh(Succeeded)];
      EndsAtNewest(Take(c, steps[0], window), CountAfter(c, count, steps[0]), steps[1..], window);
    }
  }

  /** An upload is lost when the marker has passed it while it was not stored. */
  ghost predicate IsLost(c: Channel, count: nat, i: nat) {
    i < count && i < |c.uploads| && c.uploads[i] !in c.stored.catalog
  }

  /**
  The pace is needed: when more than one window lies behind the marker, a successful refresh passes the
  uploads the window does not reach, and no later refresh ever stores one that was passed.
  */
  lemma GapIsLost(c: Channel, count: nat, window: nat, i: nat)
    requires Inv(c, count) && window > 0 && count <= i < |c.uploads| && c.uploads[i] !in c.stored.catalog
    ensures IsLost(Take(c, Refresh(Succeeded), window), |c.uploads|, i) <==> i < |c.uploads| - window
  {
    hide UpTo, Newest;
    RefreshStores(c, count, Succeeded, window, c.uploads[i]);
  }

  lemma StaysLost(c: Channel, count: nat, step: Step, window: nat, i: nat)
    requires Inv(c, count) && window > 0 && CanTake(c, step) && IsLost(c, count, i)
    ensures IsLost(Take(c, step, window), CountAfter(c, count, step), i)
  {
    hide UpTo, Newest;
    if step.Refresh? {
      RefreshStores(c, count, step.outcome, window, c.uploads[i]);
    }
  }

  lemma {:induction false} LostForGood(c: Channel, count: nat, steps: seq<Step>, window: nat, i: nat)
    requires CanRun(c, steps, window) && Inv(c, count) && window > 0 && IsLost(c, count, i)
    ensures IsLost(Run(c, steps, window), RunCount(c, count, steps, window), i)
    decreases |steps|
  {
    hide Inv, IsLost, Take, CanTake;
    if steps != [] {
      StepKeepsInv(c, count, steps[0], window);
      StaysLost(c, count, steps[0], window, i);
      LostForGood(Take(c, steps[0], window), CountAfter(c, count, steps[0]), steps[1..], window, i);
    }
  }

  /** The k-th upload of a busy channel. */
  function NthId(k: nat): (id: string)
    ensures |id| == k + 1
  {
    seq(k + 1, i => 'v')
  }

  function Published(from: nat, count: nat): seq<Step> {
    seq(count, i requires 0 <= i < count => Publish(NthId(from + i)))
  }

  function Uploads(n: nat): (uploads: seq<string>)
    ensures |uploads| == n && AreUploads(uploads)
  {
    seq(n, i requires 0 <= i < n => NthId(i))
  }

  const EMPTY := Channel([], Stored({}, ""), None)

  /** Publishing moves no marker. */
  lemma {:induction false} PublishedRun(c: Channel, marked: nat, from: nat, count: nat, window: nat)
    requires c.uploads == Uploads(from)
    ensures var steps := Published(from, count);
            && CanRun(c, steps, window) && Run(c, steps, window) == c.(uploads := Uploads(from + count))
            && RunCount(c, marked, steps, window) == marked
    decreases count
  {
    var steps := Published(from, count);
    if count == 0 {
      assert steps == [];
    } else {
      assert steps[0] == Publish(NthId(from)) && steps[1..] == Published(from + 1, count - 1);
      assert Uploads(from) + [NthId(from)] == Uploads(from + 1);
      assert forall i :: 0 <= i < from ==> |Uploads(from)[i]| == i + 1;
      PublishedRun(c.(uploads := Uploads(from + 1)), marked, from + 1, count - 1, window);
    }
  }

  /**
  A run from an empty channel that loses an upload: the first is synchronized, then one more than a window is published
  before the next refresh, which passes the second upload.
  */
  lemma BusyChannelLoses(window: nat)
    requires window > 0
    ensures var first := [Publish(NthId(0)), Refresh(Succeeded)];
            && CanRun(EMPTY, first, window)
            && var steps, c := Published(1, window + 1), Run(EMPTY, first, window);
               && CanRun(c, steps, window)
               && IsLost(Take(Run(c, steps, window), Refresh(Succeeded), window), window + 2, 1)
  {
    var c := FirstIsSynced(window);
    hide Inv, Take, IsLost;
    PublishedRun(c, 1, 1, window + 1, window);
    var busy := c.(uploads := Uploads(window + 2));
    BusyIsFine(c, window);
    GapIsLost(busy, 1, window, 1);
  }

  /** The channel once its first upload is synchronized. */
  lemma FirstIsSynced(window: nat) returns (c: Channel)
    requires window > 0
    ensures var first := [Publish(NthId(0)), Refresh(Succeeded)];
            CanRun(EMPTY, first, window) && c == Run(EMPTY, first, window)
    ensures Inv(c, 1) && c.uploads == Uploads(1) && NthId(1) !in c.stored.catalog
  {
    var first := [Publish(NthId(0)), Refresh(Succeeded)];
    assert first[1..] == [Refresh(Succeeded)] && first[1..][1..] == [];
    assert NthId(0) != "";
    var c0 := Take(EMPTY, Publish(NthId(0)), window);
    assert c0.uploads == [NthId(0)] == Uploads(1);
    assert Inv(c0, 0);
    RefreshKeepsInv(c0, 0, Succeeded, window);
    c := Take(c0, Refresh(Succeeded), window);
    SecondIsNew(c0, c, window);
  }

  lemma BusyIsFine(c: Channel, window: nat)
    requires Inv(c, 1) && c.uploads == Uploads(1) && NthId(1) !in c.stored.catalog
    ensures var busy := c.(uploads := Uploads(window + 2));
            Inv(busy, 1) && busy.uploads[1] == NthId(1) && |busy.uploads| == window + 2
  {
    var busy := c.(uploads := Uploads(window + 2));
    assert busy.uploads[0] == c.uploads[0] && busy.uploads[1] == NthId(1);
  }

  lemma SecondIsNew(c0: Channel, c: Channel, window: nat)
    requires c0 == Channel([NthId(0)], Stored({}, ""), None) && c == Take(c0, Refresh(Succeeded), window)
    ensures NthId(1) !in c.stored.catalog
  {
    var found := UpTo(Newest(c0.uploads, window), "");
    UpToMeaning(Newest(c0.uploads, window), "");
    assert forall v :: v in found ==> v == NthId(0);
    assert |NthId(0)| != |NthId(1)|;
  }
}
