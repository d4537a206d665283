/**
The persistent playback queue (internal/storage/queue.go). Every operation works on the rows of one
profile inside a transaction; positions may have gaps between two operations and are made dense again
by the normalization at the end of each.
*/
module PlaybackQueue {
  import opened Wrappers
  import opened Text
  import opened Sequences
  import opened OrderedRows

  const MAX_QUEUE_ITEMS := 100

  datatype State = Pending | Played

  datatype Entry = Entry(video: string, state: State, addedAt: string, playedAt: string)

  datatype QueueError =
    | EmptyVideo | UnknownVideo | QueueFull | NoId | StoreFailed | WrongCount | BadId | UnknownItem | BadScope

  datatype Scope = All | OnlyPlayed | Other

  /** UNIQUE (profile_id, video_id): the table never holds a video twice for one profile. */
  ghost predicate OneRowPerVideo(rows: Rows<Entry>, profile: string) {
    forall a, b :: Slot(profile, a) in rows && Slot(profile, b) in rows
      && rows[Slot(profile, a)].data.video == rows[Slot(profile, b)].data.video
      ==> a == b
  }

  /** Ids are generated as "queue_" followed by random digits, so none is blank. */
  ghost predicate NamedIds(rows: Rows<Entry>, profile: string) {
    forall id :: Slot(profile, id) in rows ==> Trim(id) != ""
  }

  /** What holds between any two operations. */
  ghost predicate Queued(rows: Rows<Entry>, profile: string, order: seq<string>) {
    Arranged(rows, profile, order) && |order| <= MAX_QUEUE_ITEMS && OneRowPerVideo(rows, profile)
      && NamedIds(rows, profile)
  }

  /** What holds after an operation that committed: positions are 0..n-1 as well. */
  ghost predicate Dense(rows: Rows<Entry>, profile: string, order: seq<string>) {
    Queued(rows, profile, order) && Represents(rows, profile, order)
  }

  ghost predicate IsQueued(rows: Rows<Entry>, profile: string, video: string) {
    exists id :: Slot(profile, id) in rows && rows[Slot(profile, id)].data.video == video
  }

  /** SELECT id ... WHERE profile_id = ? AND video_id = ?. */
  method FindVideo(rows: Rows<Entry>, profile: string, video: string) returns (id: Option<string>)
    ensures id.Some? ==> Slot(profile, id.value) in rows && rows[Slot(profile, id.value)].data.video == video
    ensures id.None? <==> !IsQueued(rows, profile, video)
  {
    var left := Members(rows, profile);
    while left != {}
      invariant forall m :: Slot(profile, m) in rows && m !in left ==> rows[Slot(profile, m)].data.video != video
      invariant forall m :: m in left ==> Slot(profile, m) in rows
      decreases left
    {
      var m :| m in left;
      if rows[Slot(profile, m)].data.video == video {
        return Some(m);
      }
      left := left - {m};
    }
    return None;
  }

  lemma QueueIdIsNamed(digits: string)
    ensures Trim("queue_" + digits) != ""
  {
    TrimSplits("queue_" + digits);
    assert ("queue_" + digits)[0] == 'q';
  }

  /** The number of members is the length of the order. */
  lemma CountIsLength(rows: Rows<Entry>, profile: string, order: seq<string>)
    requires Distinct(order) && SameMembers(rows, profile, order)
    ensures |Members(rows, profile)| == |order|
  {
    DistinctSize(order);
    assert Members(rows, profile) == set x | x in order by {
      forall m ensures m in Members(rows, profile) <==> m in order {
        assert m in Members(rows, profile) <==> Slot(profile, m) in rows;
      }
    }
  }

  class QueueStore {
    var rows: Rows<Entry>
    var videos: set<string>

    constructor (rows: Rows<Entry>, videos: set<string>)
      ensures this.rows == rows && this.videos == videos
    {
      this.rows, this.videos := rows, videos;
    }

    /** Puts a video at the end, moving it there when it is queued already. */
    method Enqueue(profile: string, rawVideo: string, digits: Option<string>, now: string, ghost order: seq<string>)
      returns (result: Result<string, QueueError>)
      requires Queued(rows, profile, order)
      modifies this`rows
      ensures OthersKept(old(rows), rows, profile)
      ensures result.Err? ==> rows == old(rows)
      ensures result.Ok? ==>
                && Dense(rows, profile, Without(order, result.value) + [result.value])
                && rows[Slot(profile, result.value)].data.video == Trim(rawVideo)
                && rows[Slot(profile, result.value)].data.state == Pending
                && (Slot(profile, result.value) in old(rows) <==> IsQueued(old(rows), profile, Trim(rawVideo)))
      ensures result.Ok? ==>
                var slot := Slot(profile, result.value);
                if slot in old(rows) then rows[slot].data == old(rows)[slot].data.(state := Pending, playedAt := "")
                else rows[slot].data == Entry(Trim(rawVideo), Pending, now, "") && digits.Some?
                     && result.value == "queue_" + digits.value
      ensures forall slot :: slot in old(rows) && (result.Ok? ==> slot.member != result.value) ==>
                slot in rows && rows[slot].data == old(rows)[slot].data
      ensures result.Ok? <==>
                && Trim(rawVideo) != "" && Trim(rawVideo) in videos
                && (IsQueued(old(rows), profile, Trim(rawVideo)) ||
                    (|order| < MAX_QUEUE_ITEMS && digits.Some? && Slot(profile, "queue_" + digits.value) !in old(rows)))
    {
      hide Trim, Without, Queued, Dense, IsQueued, Members;
      var video := Trim(rawVideo);
      if video == "" {
        return Err(EmptyVideo);
      }
      if video !in videos {
        return Err(UnknownVideo);
      }
      var count := |Members(rows, profile)|;
      CountQueued(rows, profile, order);
      var existing := FindVideo(rows, profile, video);
      if count >= MAX_QUEUE_ITEMS && existing.None? {
        return Err(QueueFull);
      }
      var next := NextPosition(rows, profile);
      if existing.None? && digits.None? {
        return Err(NoId);
      }
      var itemId := if existing.Some? then existing.value else "queue_" + digits.value;
      if existing.None? && Slot(profile, itemId) in rows {
        return Err(StoreFailed);
      }
      var transaction := PlaceLast(rows, Slot(profile, itemId), video, next, now);
      if existing.None? {
        QueueIdIsNamed(digits.value);
      } else {
        IdIsNamed(rows, profile, order, itemId);
      }
      ArrangedLast(rows, transaction, profile, order, itemId, next);
      EnqueuedIsQueued(rows, transaction, profile, order, itemId);
      rows := Normalize(transaction, profile, Without(order, itemId) + [itemId]);
      return Ok(itemId);
    }

    /** The UPDATE of a queued row, or the INSERT of a new one. */
    method PlaceLast(transaction: Rows<Entry>, slot: Slot, video: string, next: int, now: string)
      returns (after: Rows<Entry>)
      ensures after.Keys == transaction.Keys + {slot}
      ensures forall other :: other in transaction && other != slot ==> after[other] == transaction[other]
      ensures after[slot].position == next
      ensures after[slot].data == if slot in transaction then transaction[slot].data.(state := Pending, playedAt := "")
                                  else Entry(video, Pending, now, "")
    {
      if slot in transaction {
        var data := transaction[slot].data;
        return transaction[slot := Cell(next, data.(state := Pending, playedAt := ""))];
      }
      return transaction[slot := Cell(next, Entry(video, Pending, now, ""))];
    }

    /** Applies a complete new order; anything else is rejected without effect. */
    method Reorder(profile: string, ids: seq<string>, ghost order: seq<string>) returns (result: Result<(), QueueError>)
      requires Queued(rows, profile, order)
      modifies this`rows
      ensures result.Ok? <==> Distinct(ids) && forall id :: id in ids <==> id in order
      ensures result.Ok? ==> Dense(rows, profile, ids)
      ensures result.Err? ==> rows == old(rows)
      ensures OnlyPositions(old(rows), rows) && OthersKept(old(rows), rows, profile)
    {
      hide Trim, Queued;
      var count := |Members(rows, profile)|;
      CountQueued(rows, profile, order);
      if |ids| != count {
        PermutationLength(rows, profile, ids, order);
        return Err(WrongCount);
      }
      var written := WriteOrder(rows, profile, ids);
      Accepted(rows, profile, order, ids);
      if written.Err? {
        return Err(written.error);
      }
      rows := written.value;
      KeepsQueued(old(rows), rows, profile, order, ids);
      return Ok(());
    }

    method Remove(profile: string, id: string, ghost order: seq<string>)
      requires Queued(rows, profile, order)
      modifies this`rows
      ensures Dense(rows, profile, Without(order, id))
      ensures OthersKept(old(rows), rows, profile)
      ensures forall slot :: slot in rows <==> slot in old(rows) && slot != Slot(profile, id)
      ensures forall slot :: slot in rows ==> rows[slot].data == old(rows)[slot].data
    {
      hide Trim, Without, Filtered, Queued;
      var transaction := rows - {Slot(profile, id)};
      WithoutIsFiltered(order, id);
      DeletedIsQueued(rows, transaction, profile, order, x => x != id);
      rows := Normalize(transaction, profile, Without(order, id));
    }

    /** Only the scopes "all" and "played" delete anything. */
    method Clear(profile: string, scope: Scope, ghost order: seq<string>) returns (result: Result<(), QueueError>)
      requires Queued(rows, profile, order)
      modifies this`rows
      ensures result.Err? <==> scope.Other?
      ensures result.Err? ==> rows == old(rows)
      ensures result.Ok? ==> Dense(rows, profile, Filtered(order, Survives(old(rows), profile, scope)))
      ensures OthersKept(old(rows), rows, profile)
      ensures forall slot :: slot in rows ==> slot in old(rows) && rows[slot].data == old(rows)[slot].data
      ensures forall slot :: slot in old(rows) && slot.owner == profile && result.Ok? ==>
                (slot in rows <==> scope == OnlyPlayed && old(rows)[slot].data.state == Pending)
    {
      hide Trim, Filtered, Queued;
      if scope.Other? {
        return Err(BadScope);
      }
      var deleted :=
        if scope.All? then set slot | slot in rows && slot.owner == profile
        else set slot | slot in rows && slot.owner == profile && rows[slot].data.state == Played;
      var remaining := rows - deleted;
      ghost var keep := Survives(rows, profile, scope);
      DeletedIsQueued(rows, remaining, profile, order, keep);
      rows := Normalize(remaining, profile, Filtered(order, keep));
      return Ok(());
    }

    /** Marks an item, or removes it when played items are not to be kept. */
    method MarkPlayed(
      profile: string, id: string, played: bool, removePlayed: bool, now: string, ghost order: seq<string>)
      returns (result: Result<(), QueueError>)
      requires Queued(rows, profile, order)
      modifies this`rows
      ensures result.Err? <==> !(played && removePlayed) && id !in order
      ensures result.Err? ==> rows == old(rows)
      ensures result.Ok? ==> Queued(rows, profile, if played && removePlayed then Without(order, id) else order)
      ensures result.Ok? && !(played && removePlayed) ==>
                rows == old(rows)[Slot(profile, id) := old(rows)[Slot(profile, id)].(
                          data := old(rows)[Slot(profile, id)].data.(
                            state := if played then Played else Pending, playedAt := if played then now else ""))]
      ensures played && removePlayed ==>
                && (forall slot :: slot in rows <==> slot in old(rows) && slot != Slot(profile, id))
                && (forall slot :: slot in rows ==> rows[slot].data == old(rows)[slot].data)
      ensures OthersKept(old(rows), rows, profile)
    {
      hide Trim, Without, Queued, Filtered, Arranged;
      OrderHolds(rows, profile, order, id);
      if played && removePlayed {
        Remove(profile, id, order);
        return Ok(());
      }
      var slot := Slot(profile, id);
      if slot !in rows {
        return Err(UnknownItem);
      }
      DataOnly(rows, profile, order, id, if played then Played else Pending, if played then now else "");
      var cell := rows[slot];
      var state, playedAt := if played then Played else Pending, if played then now else "";
      rows := rows[slot := cell.(data := cell.data.(state := state, playedAt := playedAt))];
      return Ok(());
    }

    /** Renumbers the rows of a profile in their present order. */
    method Normalize(transaction: Rows<Entry>, profile: string, ghost order: seq<string>) returns (after: Rows<Entry>)
      requires Queued(transaction, profile, order)
      ensures Dense(after, profile, order)
      ensures OnlyPositions(transaction, after) && OthersKept(transaction, after, profile)
    {
      hide Trim;
      var ids := SelectOrdered(transaction, profile);
      SelectedOrder(transaction, profile, order, ids);
      after := Renumber(transaction, profile, ids);
      KeepsQueued(transaction, after, profile, order, order);
    }
  }

  /** The update loop of a reordering: every id must be new, named and present. */
  method WriteOrder(rows: Rows<Entry>, profile: string, ids: seq<string>)
    returns (result: Result<Rows<Entry>, QueueError>)
    ensures result.Ok? <==> Distinct(ids) && forall id :: id in ids ==> Trim(id) != "" && Slot(profile, id) in rows
    ensures result.Ok? ==> OnlyPositions(rows, result.value) && OthersKept(rows, result.value, profile)
    ensures result.Ok? ==> forall k :: 0 <= k < |ids| ==> result.value[Slot(profile, ids[k])].position == k
  {
    hide Trim;
    var transaction := rows;
    var seen: set<string> := {};
    for position := 0 to |ids|
      invariant forall id :: id in seen <==> id in ids[..position]
      invariant Distinct(ids[..position]) && forall id :: id in seen ==> Trim(id) != "" && Slot(profile, id) in rows
      invariant OnlyPositions(rows, transaction) && OthersKept(rows, transaction, profile)
      invariant forall k :: 0 <= k < position ==> transaction[Slot(profile, ids[k])].position == k
    {
      var id := ids[position];
      if id in seen || Trim(id) == "" {
        return Err(BadId);
      }
      seen := seen + {id};
      var affected := Slot(profile, id) in transaction;
      transaction := WithPosition(transaction, Slot(profile, id), position);
      if !affected {
        return Err(UnknownItem);
      }
      assert ids[..position + 1] == ids[..position] + [id];
    }
    assert ids[..|ids|] == ids;
    return Ok(transaction);
  }

  /** Which members a clearing statement leaves. */
  ghost function Survives(rows: Rows<Entry>, profile: string, scope: Scope): string -> bool {
    m => scope.OnlyPlayed? && Slot(profile, m) in rows && rows[Slot(profile, m)].data.state != Played
  }

  /** SELECT COALESCE(MAX(position), -1) + 1. */
  method NextPosition(rows: Rows<Entry>, profile: string) returns (next: int)
    ensures forall m :: Slot(profile, m) in rows ==> rows[Slot(profile, m)].position < next
  {
    var max := MaxPosition(rows, profile);
    if max.None? {
      assert forall m :: Slot(profile, m) in rows ==> m in Members(rows, profile);
      return 0;
    }
    return max.value + 1;
  }

  // ---------------------------------------------------------------- proof steps

  lemma CountQueued(rows: Rows<Entry>, profile: string, order: seq<string>)
    requires Queued(rows, profile, order)
    ensures |Members(rows, profile)| == |order|
  {
    CountIsLength(rows, profile, order);
  }

  lemma IdIsNamed(rows: Rows<Entry>, profile: string, order: seq<string>, id: string)
    requires Queued(rows, profile, order) && Slot(profile, id) in rows
    ensures Trim(id) != ""
  {
  }

  lemma ArrangedLast(
    before: Rows<Entry>, after: Rows<Entry>, profile: string, order: seq<string>, id: string, next: int)
    requires Queued(before, profile, order)
    requires after.Keys == before.Keys + {Slot(profile, id)} && after[Slot(profile, id)].position == next
    requires forall slot :: slot in before && slot != Slot(profile, id) ==> after[slot] == before[slot]
    requires forall m :: Slot(profile, m) in before ==> before[Slot(profile, m)].position < next
    ensures Arranged(after, profile, Without(order, id) + [id])
  {
    WrittenLast(before, after, profile, order, id, next);
  }

  /** Changing positions only keeps every other property of the queue. */
  lemma KeepsQueued(before: Rows<Entry>, after: Rows<Entry>, profile: string, order: seq<string>, ids: seq<string>)
    requires Queued(before, profile, order) && OnlyPositions(before, after)
    requires Distinct(ids) && forall id :: id in ids <==> id in order
    requires forall i :: 0 <= i < |ids| ==> Slot(profile, ids[i]) in after && after[Slot(profile, ids[i])].position == i
    ensures Dense(after, profile, ids)
  {
    hide Trim;
    SameLength(ids, order);
  }

  lemma ShorterFiltered(order: seq<string>, keep: string -> bool)
    ensures |Filtered(order, keep)| <= |order|
  {
  }

  /** Deleting rows keeps the queue a queue. */
  lemma DeletedIsQueued(
    before: Rows<Entry>, after: Rows<Entry>, profile: string, order: seq<string>, keep: string -> bool)
    requires Queued(before, profile, order)
    requires forall m :: Slot(profile, m) in after <==> Slot(profile, m) in before && keep(m)
    requires forall slot :: slot in after ==> slot in before && after[slot] == before[slot]
    ensures Queued(after, profile, Filtered(order, keep))
  {
    DeletedIsArranged(before, after, profile, order, keep);
    ShorterFiltered(order, keep);
    hide Trim, Arranged, Filtered;
  }

  /** The queue after a video was written behind the last position, under its old id or a new one. */
  lemma EnqueuedIsQueued(before: Rows<Entry>, after: Rows<Entry>, profile: string, order: seq<string>, id: string)
    requires Queued(before, profile, order) && Trim(id) != ""
    requires Arranged(after, profile, Without(order, id) + [id])
    requires after.Keys == before.Keys + {Slot(profile, id)}
    requires forall slot :: slot in before && slot != Slot(profile, id) ==> after[slot] == before[slot]
    requires Slot(profile, id) in before ==> before[Slot(profile, id)].data.video == after[Slot(profile, id)].data.video
    requires Slot(profile, id) !in before ==>
               !IsQueued(before, profile, after[Slot(profile, id)].data.video) && |order| < MAX_QUEUE_ITEMS
    ensures Queued(after, profile, Without(order, id) + [id])
  {
    WithoutLength(order, id);
    assert SameMembers(before, profile, order);
    hide Arranged, Without, Trim;
  }

  lemma OrderHolds(rows: Rows<Entry>, profile: string, order: seq<string>, id: string)
    requires Queued(rows, profile, order)
    ensures id in order <==> Slot(profile, id) in rows
  {
  }

  /** Marking an item changes neither positions nor videos. */
  lemma DataOnly(rows: Rows<Entry>, profile: string, order: seq<string>, id: string, state: State, playedAt: string)
    requires Queued(rows, profile, order) && Slot(profile, id) in rows
    ensures var cell := rows[Slot(profile, id)];
            var marked := cell.(data := cell.data.(state := state, playedAt := playedAt));
            Queued(rows[Slot(profile, id) := marked], profile, order)
  {
    hide Trim;
  }

  lemma PermutationLength(rows: Rows<Entry>, profile: string, ids: seq<string>, order: seq<string>)
    requires Queued(rows, profile, order)
    ensures Distinct(ids) && (forall id :: id in ids <==> id in order) ==> |ids| == |order|
  {
    hide Trim;
    if Distinct(ids) && forall id :: id in ids <==> id in order {
      SameLength(ids, order);
    }
  }

  /** A list as long as the queue passes the update loop exactly when it is a permutation of it. */
  lemma Accepted(rows: Rows<Entry>, profile: string, order: seq<string>, ids: seq<string>)
    requires Queued(rows, profile, order) && |ids| == |order|
    ensures (Distinct(ids) && forall id :: id in ids ==> Trim(id) != "" && Slot(profile, id) in rows)
            <==> (Distinct(ids) && forall id :: id in ids <==> id in order)
  {
    hide Trim;
    if Distinct(ids) && forall id :: id in ids ==> id in order {
      Pigeonhole(ids, order);
    }
  }

  /** As many distinct members as the order has, all from the order, are all of its members. */
  lemma Pigeonhole(ids: seq<string>, order: seq<string>)
    requires Distinct(ids) && Distinct(order) && |ids| == |order|
    requires forall id :: id in ids ==> id in order
    ensures forall id :: id in order ==> id in ids
  {
    DistinctSize(ids);
    DistinctSize(order);
    var a, b := set x | x in ids, set x | x in order;
    assert a <= b;
    SubsetSize(a, b);
    forall id | id in order ensures id in ids {
      assert id in b && id in a;
    }
  }
}
