/**
The `iptv_items` table as the catalog statements see it: a map from the primary key to a row.
Each INSERT ... ON CONFLICT(id) DO UPDATE of internal/storage/iptv.go is a function on that map.
*/
module IptvRows {
  datatype Episode = Episode(season: int, episode: int, hasSeason: bool, hasEpisode: bool)

  datatype Item = Item(
    id: string, sourceId: string, sourceName: string, kind: string, classification: string,
    title: string, group: string, logoUrl: string, streamUrl: string, epgId: string,
    channelNumber: string, language: string, country: string, episode: Episode)

  /** The columns an upsert overwrites. Stream URLs are never stored. */
  datatype Details = Details(
    kind: string, classification: string, title: string, rawTitle: string, group: string,
    logoUrl: string, epgId: string, channelNumber: string, language: string, country: string,
    episode: Episode)

  datatype Row = Row(sourceId: string, details: Details, firstSeen: string, lastSeen: string)

  type Rows = map<string, Row>

  function DetailsOf(item: Item): Details {
    Details(item.kind, item.classification, item.title, item.title, item.group, item.logoUrl,
            item.epgId, item.channelNumber, item.language, item.country, item.episode)
  }

  /** A row shows what the item says, in every column but the stream URL, which is not stored. */
  ghost predicate Shows(row: Row, item: Item) {
    && row.details.kind == item.kind && row.details.classification == item.classification
    && row.details.title == item.title && row.details.rawTitle == item.title && row.details.group == item.group
    && row.details.logoUrl == item.logoUrl && row.details.epgId == item.epgId
    && row.details.channelNumber == item.channelNumber && row.details.language == item.language
    && row.details.country == item.country && row.details.episode == item.episode
  }

  lemma UpsertShows(rows: Rows, item: Item, sourceId: string, stamp: string, policy: FirstSeen)
    ensures item.id in Upsert(rows, item, sourceId, stamp, policy)
    ensures Shows(Upsert(rows, item, sourceId, stamp, policy)[item.id], item)
  {
  }

  /** What a conflicting upsert does with `first_seen_at`: the two statements differ only here. */
  datatype FirstSeen = KeepAlways | KeepUnlessEmpty

  function Upsert(rows: Rows, item: Item, sourceId: string, stamp: string, policy: FirstSeen): Rows {
    var first :=
      if item.id in rows && (policy.KeepAlways? || rows[item.id].firstSeen != "") then rows[item.id].firstSeen
      else stamp;
    rows[item.id := Row(sourceId, DetailsOf(item), first, stamp)]
  }

  function UpsertAll(rows: Rows, items: seq<Item>, sourceId: string, stamp: string, policy: FirstSeen): Rows {
    if items == [] then rows
    else
      var before := UpsertAll(rows, items[..|items| - 1], sourceId, stamp, policy);
      Upsert(before, items[|items| - 1], sourceId, stamp, policy)
  }

  lemma UpsertOneMore(rows: Rows, items: seq<Item>, item: Item, sourceId: string, stamp: string, policy: FirstSeen)
    ensures UpsertAll(rows, items + [item], sourceId, stamp, policy)
            == Upsert(UpsertAll(rows, items, sourceId, stamp, policy), item, sourceId, stamp, policy)
  {
    assert (items + [item])[..|items|] == items;
  }

  /** Clearing the stream URL of an item in the batch does not change what is stored. */
  lemma StreamUrlNotStored(rows: Rows, item: Item, sourceId: string, stamp: string, policy: FirstSeen)
    ensures Upsert(rows, item.(streamUrl := ""), sourceId, stamp, policy) == Upsert(rows, item, sourceId, stamp, policy)
  {
  }

  lemma {:induction false} UpsertAllAppend(
    rows: Rows, a: seq<Item>, b: seq<Item>, sourceId: string, stamp: string, policy: FirstSeen)
    ensures UpsertAll(rows, a + b, sourceId, stamp, policy)
            == UpsertAll(UpsertAll(rows, a, sourceId, stamp, policy), b, sourceId, stamp, policy)
  {
    if b == [] {
      assert a + b == a;
    } else {
      assert (a + b)[..|a + b| - 1] == a + b[..|b| - 1];
      UpsertAllAppend(rows, a, b[..|b| - 1], sourceId, stamp, policy);
    }
  }

  ghost predicate Has(items: seq<Item>, id: string) {
    exists i :: 0 <= i < |items| && items[i].id == id
  }

  /** The last item with a given id: the one whose data a catalog must show. */
  function Last(items: seq<Item>, id: string): (item: Item)
    requires Has(items, id)
    ensures item.id == id && item in items
  {
    if items[|items| - 1].id == id then items[|items| - 1]
    else
      assert Has(items[..|items| - 1], id) by {
        var i :| 0 <= i < |items| && items[i].id == id;
        assert items[..|items| - 1][i].id == id;
      }
      Last(items[..|items| - 1], id)
  }

  lemma {:induction false} LastIsLast(items: seq<Item>, id: string) returns (i: nat)
    requires Has(items, id)
    ensures i < |items| && items[i] == Last(items, id) && forall j :: i < j < |items| ==> items[j].id != id
  {
    var n := |items| - 1;
    if items[n].id == id {
      return n;
    }
    HasStep(items, id);
    i := LastIsLast(items[..n], id);
    assert forall j :: 0 <= j < n ==> items[j] == items[..n][j];
  }

  /**
  What a run of upserts leaves: rows outside the list are untouched, and a listed id holds the data
  of its last item; its first-seen stamp depends on the row that stood there before the run.
  */
  lemma {:induction false} UpsertAllResult(
    rows: Rows, items: seq<Item>, sourceId: string, stamp: string, policy: FirstSeen, id: string)
    requires stamp != ""
    ensures var result := UpsertAll(rows, items, sourceId, stamp, policy);
            if Has(items, id) then
              id in result && result[id]
                == Row(sourceId, DetailsOf(Last(items, id)), FirstStamp(rows, id, stamp, policy), stamp)
            else
              (id in result <==> id in rows) && (id in rows ==> result[id] == rows[id])
  {
    if items != [] {
      var front, last := items[..|items| - 1], items[|items| - 1];
      UpsertAllResult(rows, front, sourceId, stamp, policy, id);
      HasStep(items, id);
    }
  }

  lemma HasStep(items: seq<Item>, id: string)
    requires items != []
    ensures Has(items, id) <==> items[|items| - 1].id == id || Has(items[..|items| - 1], id)
  {
    var front, last := items[..|items| - 1], items[|items| - 1];
    if Has(items, id) {
      var i :| 0 <= i < |items| && items[i].id == id;
      if i < |front| {
        assert front[i].id == id;
      }
    }
    if Has(front, id) {
      var i :| 0 <= i < |front| && front[i].id == id;
      assert items[i].id == id;
    }
  }

  /** After a run of upserts, a listed id shows its last item, under the source and the stamp of the run. */
  lemma UpsertAllShows(
    rows: Rows, items: seq<Item>, sourceId: string, stamp: string, policy: FirstSeen, id: string)
    requires stamp != "" && Has(items, id)
    ensures var result := UpsertAll(rows, items, sourceId, stamp, policy);
            && id in result && Shows(result[id], Last(items, id)) && result[id].sourceId == sourceId
            && result[id].lastSeen == stamp
            && result[id].firstSeen ==
               if id in rows && (policy.KeepAlways? || rows[id].firstSeen != "") then rows[id].firstSeen else stamp
  {
    UpsertAllResult(rows, items, sourceId, stamp, policy, id);
  }

  function FirstStamp(rows: Rows, id: string, stamp: string, policy: FirstSeen): string {
    if id in rows && (policy.KeepAlways? || rows[id].firstSeen != "") then rows[id].firstSeen else stamp
  }
}
