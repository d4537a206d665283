/**
Playlist items (internal/storage/playlists.go, internal/storage/playlist_tags.go): adding, removing and
moving videos, with positions kept dense by range shifts or rewritten from a slice.
*/
module Playlists {
  import opened Wrappers
  import opened OrderedRows

  /** The columns of an item besides its key and position. */
  datatype Item = Item(addedAt: string)

  const MAX_INT := 0x7FFF_FFFF_FFFF_FFFF
  const TWO_64 := 0x1_0000_0000_0000_0000

  /** Go's 64-bit addition. */
  function Add64(a: int, b: int): int {
    var sum := a + b;
    if sum > MAX_INT then sum - TWO_64 else if sum < -MAX_INT - 1 then sum + TWO_64 else sum
  }

  function Clamp(value: int, bound: int): (r: int)
    ensures 0 <= bound ==> 0 <= r <= bound
    ensures 0 <= value <= bound ==> r == value
    ensures (value < 0 ==> r == 0) && (0 <= bound < value ==> r == bound)
  {
    if value < 0 then 0 else if value > bound then bound else value
  }

  // ---------------------------------------------------------------- what happens to the order

  function AppendNew(order: seq<string>, ids: seq<string>): seq<string> {
    if ids == [] then order
    else
      var before := AppendNew(order, ids[..|ids| - 1]);
      if ids[|ids| - 1] in before then before else before + [ids[|ids| - 1]]
  }

  /** The members that are not listed, in their order. */
  function WithoutAll(order: seq<string>, ids: seq<string>): seq<string> {
    if order == [] then []
    else WithoutAll(order[..|order| - 1], ids) + if order[|order| - 1] in ids then [] else [order[|order| - 1]]
  }

  /** The first occurrences of a list. */
  function FirstOccurrences(ids: seq<string>): seq<string> {
    AppendNew([], ids)
  }

  function NewIds(order: seq<string>, ids: seq<string>): seq<string> {
    if ids == [] then []
    else
      var before := NewIds(order, ids[..|ids| - 1]);
      var id := ids[|ids| - 1];
      if id in order || id in before then before else before + [id]
  }

  /** Adding keeps the old order in front and appends the ids it lacked, each once, in request order. */
  lemma {:induction false} AppendNewIs(order: seq<string>, ids: seq<string>)
    ensures AppendNew(order, ids) == order + NewIds(order, ids)
    ensures forall x :: x in NewIds(order, ids) <==> x in ids && x !in order
    ensures Distinct(NewIds(order, ids))
    ensures Distinct(order) ==> Distinct(AppendNew(order, ids))
  {
    if ids != [] {
      AppendNewIs(order, ids[..|ids| - 1]);
      assert forall x :: x in ids <==> x in ids[..|ids| - 1] || x == ids[|ids| - 1];
    }
  }

  /** The new ids keep the order in which they are first mentioned. */
  lemma {:induction false} NewIdsInOrder(order: seq<string>, ids: seq<string>, i: nat, j: nat)
    requires i < j < |NewIds(order, ids)|
    ensures exists k :: 0 <= k < |ids| && ids[k] == NewIds(order, ids)[i] && NewIds(order, ids)[j] !in ids[..k + 1]
  {
    var n := |ids| - 1;
    var front, last, added := ids[..n], ids[n], NewIds(order, ids);
    AppendNewIs(order, ids);
    if j < |NewIds(order, front)| {
      NewIdsInOrder(order, front, i, j);
      var k :| 0 <= k < n && front[k] == added[i] && added[j] !in front[..k + 1];
      assert ids[..k + 1] == front[..k + 1];
    } else {
      AppendNewIs(order, front);
      assert added[i] == NewIds(order, front)[i] && added[i] in front;
      var k :| 0 <= k < n && front[k] == added[i];
      assert forall x :: x in ids[..k + 1] ==> x in front;
      assert last !in order && last !in NewIds(order, front) && last !in front;
    }
  }

  /** Removing one id after the other removes the listed ones. */
  lemma {:induction false} WithoutOneMore(order: seq<string>, ids: seq<string>, id: string)
    ensures WithoutAll(order, ids + [id]) == Without(WithoutAll(order, ids), id)
  {
    if order != [] {
      WithoutOneMore(order[..|order| - 1], ids, id);
      var x := order[|order| - 1];
      var kept := WithoutAll(order[..|order| - 1], ids);
      assert (kept + [x])[..|kept|] == kept && kept + [] == kept;
    }
  }

  lemma {:induction false} WithoutNone(order: seq<string>)
    ensures WithoutAll(order, []) == order
  {
    if order != [] {
      WithoutNone(order[..|order| - 1]);
    }
  }

  /** Removing a list keeps exactly the others, and keeps a distinct order distinct. */
  lemma {:induction false} WithoutAllIs(order: seq<string>, ids: seq<string>)
    ensures forall x :: x in WithoutAll(order, ids) <==> x in order && x !in ids
    ensures Distinct(order) ==> Distinct(WithoutAll(order, ids))
  {
    if order != [] {
      WithoutAllIs(order[..|order| - 1], ids);
      assert forall x :: x in order <==> x in order[..|order| - 1] || x == order[|order| - 1];
      if Distinct(order) {
        assert order[|order| - 1] !in order[..|order| - 1];
        AppendDistinct(WithoutAll(order[..|order| - 1], ids), order[|order| - 1]);
      }
    }
  }

  lemma MoveToDistinct(order: seq<string>, member: string, index: nat)
    requires Distinct(order) && index <= |Without(order, member)|
    ensures Distinct(MoveTo(order, member, index))
  {
    WithoutDistinct(order, member);
    var rest := Without(order, member);
    InsertDistinct(rest, member, index);
  }

  lemma InsertDistinct(s: seq<string>, x: string, index: nat)
    requires Distinct(s) && x !in s && index <= |s|
    ensures Distinct(s[..index] + [x] + s[index..])
  {
    var t := s[..index] + [x] + s[index..];
    forall i, j | 0 <= i < j < |t| ensures t[i] != t[j] {
      assert i != index ==> t[i] == s[if i < index then i else i - 1];
      assert j != index ==> t[j] == s[if j < index then j else j - 1];
    }
  }

  // ---------------------------------------------------------------- what the statements do to the order

  /** A row inserted behind the last position appends its member. */
  lemma AppendRow(before: Rows<Item>, after: Rows<Item>, playlist: string, order: seq<string>, id: string)
    requires Represents(before, playlist, order) && id !in order
    requires after.Keys == before.Keys + {Slot(playlist, id)} && after[Slot(playlist, id)].position == |order|
    requires forall slot :: slot in before ==> after[slot] == before[slot]
    ensures Represents(after, playlist, order + [id])
  {
    AppendDistinct(order, id);
  }

  lemma MembersWithout(before: Rows<Item>, after: Rows<Item>, playlist: string, order: seq<string>, at: nat)
    requires Represents(before, playlist, order) && at < |order|
    requires after.Keys == before.Keys - {Slot(playlist, order[at])}
    ensures var rest := Without(order, order[at]);
            && SameMembers(after, playlist, rest) && Distinct(rest) && |rest| == |order| - 1
            && forall i :: 0 <= i < |rest| ==>
                 Slot(playlist, rest[i]) in after && rest[i] == order[if i < at then i else i + 1]
  {
    WithoutAt(order, at);
    WithoutDistinct(order, order[at]);
    OthersAreLeft(order, at);
    hide Without;
    var rest := Without(order, order[at]);
    assert SameMembers(after, playlist, rest) by {
      hide Distinct;
      assert SameMembers(before, playlist, order);
    }
  }

  lemma OthersAreLeft(order: seq<string>, at: nat)
    requires Distinct(order) && at < |order|
    ensures forall x :: x in order[..at] + order[at + 1..] <==> x in order && x != order[at]
  {
    assert order == order[..at] + [order[at]] + order[at + 1..];
    assert order[at] !in order[..at] && order[at] !in order[at + 1..];
  }

  /** Deleting a row and shifting the rows behind it down takes the member out of the order. */
  lemma CloseGap(before: Rows<Item>, after: Rows<Item>, playlist: string, order: seq<string>, at: nat)
    requires Represents(before, playlist, order) && at < |order|
    requires after.Keys == before.Keys - {Slot(playlist, order[at])}
    requires forall i :: 0 <= i < |order| && i != at ==>
                         after[Slot(playlist, order[i])].position == if i > at then i - 1 else i
    ensures Represents(after, playlist, Without(order, order[at]))
  {
    hide Without, SameMembers, Distinct;
    MembersWithout(before, after, playlist, order, at);
  }

  lemma MoveNowhere(order: seq<string>, at: nat)
    requires Distinct(order) && at < |order|
    ensures |Without(order, order[at])| == |order| - 1 && MoveTo(order, order[at], at) == order
  {
    WithoutAt(order, at);
  }

  /** The position a range shift gives to a row that is not the moved one. */
  function Shifted(p: int, position: int, target: int): int {
    if target > position then (if position < p <= target then p - 1 else p)
    else if target <= p < position then p + 1
    else p
  }

  /** The range update of a move: one statement for each direction. */
  function RangeShift(rows: Rows<Item>, playlist: string, position: int, target: int): (after: Rows<Item>)
    ensures OnlyPositions(rows, after) && OthersKept(rows, after, playlist)
    ensures forall m :: Slot(playlist, m) in rows ==>
                        after[Slot(playlist, m)].position == Shifted(rows[Slot(playlist, m)].position, position, target)
  {
    if target > position then Reposition(rows, playlist, p => if position < p <= target then p - 1 else p)
    else Reposition(rows, playlist, p => if target <= p < position then p + 1 else p)
  }

  /** Where the member at index `i` of the moved order stood before. */
  function Before(i: nat, at: nat, target: nat): nat {
    if i == target then at
    else
      var j := if i < target then i else i - 1;
      if j < at then j else j + 1
  }

  lemma MovedAt(order: seq<string>, at: nat, target: nat, i: nat)
    requires Distinct(order) && at < |order| && target < |order| && i < |order|
    ensures |Without(order, order[at])| == |order| - 1
    ensures MoveTo(order, order[at], target)[i] == order[Before(i, at, target)]
    ensures i != target ==> Before(i, at, target) != at && Shifted(Before(i, at, target), at, target) == i
  {
    WithoutAt(order, at);
    hide Without;
    var rest := Without(order, order[at]);
    if i != target {
      var j := if i < target then i else i - 1;
      assert rest[j] == order[if j < at then j else j + 1];
      assert MoveTo(order, order[at], target)[i] == rest[j];
    }
  }

  /** The range shift followed by the direct update moves exactly one member. */
  lemma ShiftMoves(before: Rows<Item>, after: Rows<Item>, playlist: string, order: seq<string>, at: nat, target: nat)
    requires Represents(before, playlist, order) && at < |order| && target < |order|
    requires after.Keys == before.Keys && after[Slot(playlist, order[at])].position == target
    requires forall i :: 0 <= i < |order| && i != at ==>
        after[Slot(playlist, order[i])].position == Shifted(i, at, target)
    ensures |Without(order, order[at])| == |order| - 1
    ensures Represents(after, playlist, MoveTo(order, order[at], target))
  {
    MovedAt(order, at, target, 0);
    var moved := MoveTo(order, order[at], target);
    MoveToDistinct(order, order[at], target);
    MoveToMembers(order, order[at], target);
    forall i | 0 <= i < |moved| ensures after[Slot(playlist, moved[i])].position == i {
      MovedAt(order, at, target, i);
      hide MoveTo, Without, Before, Shifted, Distinct;
    }
  }

  lemma MoveToMembers(order: seq<string>, member: string, index: nat)
    requires member in order && index <= |Without(order, member)|
    ensures forall x :: x in MoveTo(order, member, index) <==> x in order
  {
    var rest := Without(order, member);
    assert rest == rest[..index] + rest[index..];
    assert forall x :: x in rest <==> x in rest[..index] || x in rest[index..];
  }

  /** Statements on one playlist leave the order of another alone. */
  lemma OthersRepresented(before: Rows<Item>, after: Rows<Item>, changed: string, other: string, order: seq<string>)
    requires OthersKept(before, after, changed) && changed != other && Represents(before, other, order)
    ensures Represents(after, other, order)
  {
    assert forall member :: Slot(other, member).owner != changed;
  }

  /** The index of a video in a slice, -1 when it is missing. */
  method IndexOf(slice: seq<string>, video: string) returns (from: int)
    ensures -1 <= from < |slice|
    ensures from == -1 ==> video !in slice
    ensures 0 <= from ==> slice[from] == video
  {
    for i := 0 to |slice|
      invariant video !in slice[..i]
    {
      if slice[i] == video {
        return i;
      }
    }
    return -1;
  }

  /** The slice edits of the source: close the gap, grow by one, shift the tail up, write the moved id. */
  method MoveInSlice(slice: seq<string>, from: nat, target: nat) returns (moved: seq<string>)
    requires Distinct(slice) && from < |slice| && target < |slice|
    ensures |Without(slice, slice[from])| == |slice| - 1
    ensures moved == MoveTo(slice, slice[from], target)
  {
    WithoutAt(slice, from);
    moved := slice[..from] + slice[from + 1..];
    moved := moved + [""];
    moved := moved[..target + 1] + moved[target..|moved| - 1];
    moved := moved[target := slice[from]];
    hide Without;
  }

  /** The first occurrence of every id, and how many repetitions were skipped. */
  method FirstRows(all: seq<string>) returns (keep: seq<string>, dups: nat)
    ensures keep == FirstOccurrences(all) && dups == |all| - |keep|
  {
    var seen: set<string> := {};
    keep, dups := [], 0;
    for i := 0 to |all|
      invariant keep == FirstOccurrences(all[..i]) && dups == i - |keep|
      invariant forall id :: id in seen <==> id in keep
    {
      assert all[..i + 1][..i] == all[..i];
      if all[i] in seen {
        dups := dups + 1;
        continue;
      }
      seen := seen + {all[i]};
      keep := keep + [all[i]];
    }
    assert all[..|all|] == all;
  }

  /** Deduplicating a list keeps each id once, in the order of its first occurrence, and is idempotent. */
  lemma FirstOccurrencesIs(ids: seq<string>)
    ensures Distinct(FirstOccurrences(ids))
    ensures forall x :: x in FirstOccurrences(ids) <==> x in ids
    ensures FirstOccurrences(FirstOccurrences(ids)) == FirstOccurrences(ids)
  {
    AppendNewIs([], ids);
    FirstOccurrencesOfDistinct(FirstOccurrences(ids));
  }

  lemma {:induction false} FirstOccurrencesOfDistinct(ids: seq<string>)
    requires Distinct(ids)
    ensures FirstOccurrences(ids) == ids
  {
    if ids != [] {
      FirstOccurrencesOfDistinct(ids[..|ids| - 1]);
    }
  }

  /** Whether some kept row does not stand at its index. */
  method NeedsCompact(rows: Rows<Item>, playlist: string, keep: seq<string>) returns (needed: bool)
    requires Distinct(keep) && SameMembers(rows, playlist, keep)
    ensures needed <==> !Represents(rows, playlist, keep)
  {
    for i := 0 to |keep|
      invariant forall k :: 0 <= k < i ==> rows[Slot(playlist, keep[k])].position == k
    {
      if rows[Slot(playlist, keep[i])].position != i {
        return true;
      }
    }
    return false;
  }

  // ---------------------------------------------------------------- the store

  class PlaylistStore {
    var rows: Rows<Item>

    constructor (rows: Rows<Item>)
      ensures this.rows == rows
    {
      this.rows := rows;
    }

    /** Appends videos at the end; those already there, and repetitions, are skipped. */
    method AddItems(playlist: string, ids: seq<string>, now: string, ghost order: seq<string>)
      requires Represents(rows, playlist, order)
      modifies this
      ensures Represents(rows, playlist, AppendNew(order, ids))
      ensures OthersKept(old(rows), rows, playlist)
      ensures forall slot :: slot in old(rows) ==> slot in rows && rows[slot] == old(rows[slot])
      ensures forall slot :: slot in rows && slot !in old(rows) ==> rows[slot].data == Item(now)
    {
      hide Distinct;
      var existing := Members(rows, playlist);
      var max := MaxPosition(rows, playlist);
      MaxOfDense(rows, playlist, order, max);
      var position := if max.Some? then max.value + 1 else 0;
      for i := 0 to |ids|
        invariant Represents(rows, playlist, AppendNew(order, ids[..i]))
        invariant existing == Members(rows, playlist)
        invariant position == |AppendNew(order, ids[..i])|
        invariant OthersKept(old(rows), rows, playlist)
        invariant forall slot :: slot in old(rows) ==> slot in rows && rows[slot] == old(rows[slot])
        invariant forall slot :: slot in rows && slot !in old(rows) ==> rows[slot].data == Item(now)
      {
        var id := ids[i];
        ghost var current := AppendNew(order, ids[..i]);
        assert ids[..i + 1][..i] == ids[..i];
        assert id in existing <==> Slot(playlist, id) in rows;
        if id in existing {
          continue;
        }
        ghost var before := rows;
        rows := rows[Slot(playlist, id) := Cell(position, Item(now))];
        AppendRow(before, rows, playlist, current, id);
        existing := existing + {id};
        position := position + 1;
      }
      assert ids[..|ids|] == ids;
    }

    /** Takes a video out and closes the gap. Removing what is not there is not an error. */
    method RemoveItem(playlist: string, video: string, ghost order: seq<string>)
      requires Represents(rows, playlist, order)
      modifies this
      ensures Represents(rows, playlist, Without(order, video))
      ensures OthersKept(old(rows), rows, playlist)
      ensures forall slot :: slot in rows ==> slot in old(rows) && rows[slot].data == old(rows[slot].data)
    {
      var slot := Slot(playlist, video);
      if slot !in rows {
        WithoutAbsent(order, video);
        return;
      }
      var position := rows[slot].position;
      ghost var at :| 0 <= at < |order| && order[at] == video;
      var deleted := rows - {slot};
      rows := Reposition(deleted, playlist, p => if p > position then p - 1 else p);
      CloseGap(old(rows), rows, playlist, order, at);
    }

    method RemoveItems(playlist: string, ids: seq<string>, ghost order: seq<string>) returns (ok: bool)
      requires Represents(rows, playlist, order)
      modifies this
      ensures ok <==> playlist != "" && ids != []
      ensures Represents(rows, playlist, if ok then WithoutAll(order, ids) else order)
      ensures OthersKept(old(rows), rows, playlist)
      ensures forall slot :: slot in rows ==> slot in old(rows) && rows[slot].data == old(rows[slot].data)
    {
      if playlist == "" || ids == [] {
        return false;
      }
      RemoveEach(playlist, ids, order);
      return true;
    }

    method RemoveEach(playlist: string, ids: seq<string>, ghost order: seq<string>)
      requires Represents(rows, playlist, order)
      modifies this
      ensures Represents(rows, playlist, WithoutAll(order, ids))
      ensures OthersKept(old(rows), rows, playlist)
      ensures forall slot :: slot in rows ==> slot in old(rows) && rows[slot].data == old(rows[slot].data)
    {
      WithoutNone(order);
      for i := 0 to |ids|
        invariant Represents(rows, playlist, WithoutAll(order, ids[..i]))
        invariant OthersKept(old(rows), rows, playlist)
        invariant forall slot :: slot in rows ==> slot in old(rows) && rows[slot].data == old(rows[slot].data)
      {
        assert ids[..i + 1] == ids[..i] + [ids[i]];
        WithoutOneMore(order, ids[..i], ids[i]);
        RemoveItem(playlist, ids[i], WithoutAll(order, ids[..i]));
      }
      assert ids[..|ids|] == ids;
    }

    method CopyItems(from: string, to: string, ids: seq<string>, now: string, ghost order: seq<string>)
      returns (ok: bool)
      requires Represents(rows, to, order)
      modifies this
      ensures ok <==> from != "" && to != "" && ids != []
      ensures Represents(rows, to, if ok then AppendNew(order, ids) else order)
      ensures OthersKept(old(rows), rows, to)
      ensures forall slot :: slot in old(rows) ==> slot in rows && rows[slot] == old(rows[slot])
    {
      if from == "" || to == "" || ids == [] {
        return false;
      }
      AddItems(to, ids, now, order);
      return true;
    }

    /** Removes the videos from one playlist and appends them to another, or to the same one. */
    method MoveItems(
      from: string, to: string, ids: seq<string>, now: string, ghost source: seq<string>, ghost target: seq<string>)
      returns (ok: bool)
      requires Represents(rows, from, source) && Represents(rows, to, target)
      modifies this
      ensures ok <==> from != "" && to != "" && ids != []
      ensures !ok ==> rows == old(rows)
      ensures ok && from != to ==>
          Represents(rows, from, WithoutAll(source, ids)) && Represents(rows, to, AppendNew(target, ids))
      ensures ok && from == to ==> Represents(rows, to, AppendNew(WithoutAll(source, ids), ids))
      ensures forall slot :: slot in rows ==>
                (slot in old(rows) && rows[slot].data == old(rows[slot].data)) || rows[slot].data == Item(now)
      ensures from != to ==> forall slot: Slot :: slot.owner == to && slot in old(rows) ==>
                slot in rows && rows[slot] == old(rows)[slot]
      ensures forall slot: Slot :: slot.owner != from && slot.owner != to ==>
                (slot in rows <==> slot in old(rows)) && (slot in rows ==> rows[slot] == old(rows)[slot])
    {
      if from == "" || to == "" || ids == [] {
        return false;
      }
      RemoveEach(from, ids, source);
      ghost var removed := rows;
      if from == to {
        AddItems(to, ids, now, WithoutAll(source, ids));
      } else {
        OthersRepresented(old(rows), rows, from, to, target);
        AddItems(to, ids, now, target);
        OthersRepresented(removed, rows, to, from, WithoutAll(source, ids));
      }
      return true;
    }

    /** Moves a video by a distance: the rows in between shift by one. */
    method MoveItem(playlist: string, video: string, delta: int, ghost order: seq<string>)
      requires Represents(rows, playlist, order) && |order| <= MAX_INT && -MAX_INT - 1 <= delta <= MAX_INT
      modifies this
      ensures video !in order ==> rows == old(rows)
      ensures forall at :: 0 <= at < |order| && order[at] == video ==>
                           && |Without(order, video)| == |order| - 1
                           && Represents(rows, playlist, MoveTo(order, video, Clamp(Add64(at, delta), |order| - 1)))
      ensures OnlyPositions(old(rows), rows) && OthersKept(old(rows), rows, playlist)
    {
      hide Without, MoveTo;
      var slot := Slot(playlist, video);
      if slot !in rows {
        return;
      }
      var position := rows[slot].position;
      ghost var at :| 0 <= at < |order| && order[at] == video;
      MoveNowhere(order, at);
      if delta == 0 {
        return;
      }
      var max := MaxPosition(rows, playlist);
      MaxOfDense(rows, playlist, order, max);
      var bound := if max.Some? then max.value else 0;
      assert video in Members(rows, playlist);
      var target := Add64(position, delta);
      if target < 0 {
        target := 0;
      }
      if target > bound {
        target := bound;
      }
      if target == position {
        return;
      }
      ShiftTo(slot, position, target, order);
    }

    /** The two updates of a move: shift the rows in between, then place the moved one. */
    method ShiftTo(slot: Slot, position: int, target: int, ghost order: seq<string>)
      requires Represents(rows, slot.owner, order) && slot in rows && position == rows[slot].position
      requires 0 <= target < |order|
      modifies this
      ensures |Without(order, slot.member)| == |order| - 1
      ensures Represents(rows, slot.owner, MoveTo(order, slot.member, target))
      ensures OnlyPositions(old(rows), rows) && OthersKept(old(rows), rows, slot.owner)
    {
      hide MoveTo, Without, Shifted, RangeShift;
      assert slot == Slot(slot.owner, slot.member);
      ghost var at :| 0 <= at < |order| && order[at] == slot.member;
      rows := RangeShift(rows, slot.owner, position, target);
      rows := WithPosition(rows, slot, target);
      ShiftMoves(old(rows), rows, slot.owner, order, at, target);
    }

    /** Moves a video to an absolute index by rewriting every position from an edited slice. */
    method MoveItemToIndex(playlist: string, video: string, index: int, ghost order: seq<string>)
      requires Represents(rows, playlist, order)
      modifies this
      ensures video !in order ==> rows == old(rows)
      ensures video in order ==>
                && |Without(order, video)| == |order| - 1
                && Represents(rows, playlist, MoveTo(order, video, Clamp(index, |order| - 1)))
      ensures OnlyPositions(old(rows), rows) && OthersKept(old(rows), rows, playlist)
    {
      hide Without, MoveTo;
      var target := if index < 0 then 0 else index;
      var slice := SelectOrdered(rows, playlist);
      DenseIsArranged(rows, playlist, order);
      SelectedOrder(rows, playlist, order, slice);
      var from := IndexOf(slice, video);
      if from < 0 {
        return;
      }
      MoveNowhere(order, from);
      if target > |slice| - 1 {
        target := |slice| - 1;
      }
      if target == from {
        return;
      }
      slice := MoveInSlice(slice, from, target);
      MoveToDistinct(order, video, target);
      MoveToMembers(order, video, target);
      rows := Renumber(rows, playlist, slice);
    }

    /** Removes repetitions and gaps; returns how many rows were dropped. */
    method Deduplicate(playlist: string, now: string, ghost order: seq<string>) returns (removed: nat)
      requires Arranged(rows, playlist, order)
      modifies this
      ensures removed == 0
      ensures Represents(rows, playlist, order)
      ensures OthersKept(old(rows), rows, playlist)
      ensures Represents(old(rows), playlist, order) ==> rows == old(rows)
      ensures forall m :: m in order && old(rows)[Slot(playlist, m)].data.addedAt != "" ==>
                          rows[Slot(playlist, m)].data == old(rows)[Slot(playlist, m)].data
    {
      var all := SelectOrdered(rows, playlist);
      SelectedOrder(rows, playlist, order, all);
      var keep, dups := FirstRows(all);
      FirstOccurrencesOfDistinct(all);
      if dups == 0 {
        var needsCompact := NeedsCompact(rows, playlist, keep);
        if !needsCompact {
          return 0;
        }
      }
      rows := Rewritten(rows, playlist, keep, now);
      return dups;
    }
  }

  /** DELETE all items of the playlist, then INSERT the kept ones at their indices. */
  method Rewritten(rows: Rows<Item>, playlist: string, keep: seq<string>, now: string) returns (written: Rows<Item>)
    requires Distinct(keep) && SameMembers(rows, playlist, keep)
    ensures Represents(written, playlist, keep) && OthersKept(rows, written, playlist)
    ensures forall m :: m in keep ==> written[Slot(playlist, m)].data == Restamped(rows[Slot(playlist, m)].data, now)
  {
    written := rows - (set slot | slot in rows && slot.owner == playlist);
    for i := 0 to |keep|
      invariant OthersKept(rows, written, playlist)
      invariant forall m :: Slot(playlist, m) in written <==> m in keep[..i]
      invariant forall k :: 0 <= k < i ==>
          written[Slot(playlist, keep[k])] == Cell(k, Restamped(rows[Slot(playlist, keep[k])].data, now))
    {
      var slot := Slot(playlist, keep[i]);
      written := written[slot := Cell(i, Restamped(rows[slot].data, now))];
      assert keep[..i + 1] == keep[..i] + [keep[i]];
    }
    assert keep[..|keep|] == keep;
  }

  function Restamped(item: Item, now: string): Item {
    if item.addedAt == "" then Item(now) else item
  }

  // ---------------------------------------------------------------- laws of the store

  /**
  Shifting rows and rewriting the slice are the same operation: starting from the same rows, a move by
  a distance and a move to the index it leads to leave identical tables.
  */
  lemma MovesAgree(
    base: Rows<Item>, shifted: Rows<Item>, rewritten: Rows<Item>, playlist: string, order: seq<string>, at: nat,
    delta: int)
    requires Represents(base, playlist, order) && at < |order| <= MAX_INT && -MAX_INT - 1 <= delta <= MAX_INT
    requires |Without(order, order[at])| == |order| - 1
    requires OnlyPositions(base, shifted) && OthersKept(base, shifted, playlist)
    requires OnlyPositions(base, rewritten) && OthersKept(base, rewritten, playlist)
    requires Represents(shifted, playlist, MoveTo(order, order[at], Clamp(Add64(at, delta), |order| - 1)))
    requires Represents(rewritten, playlist, MoveTo(order, order[at], Clamp(at + delta, |order| - 1)))
    ensures shifted == rewritten <==> at + delta <= MAX_INT || |order| == 1
  {
    DistanceIsExact(at, delta, |order|);
    var a, b := Clamp(Add64(at, delta), |order| - 1), Clamp(at + delta, |order| - 1);
    if a == b {
      DenseRowsAgree(base, shifted, rewritten, playlist, MoveTo(order, order[at], a));
    } else {
      WithoutAt(order, at);
      assert MoveTo(order, order[at], a)[a] == order[at] == MoveTo(order, order[at], b)[b];
      assert shifted[Slot(playlist, order[at])].position == a;
      assert rewritten[Slot(playlist, order[at])].position == b;
    }
  }

  /** The clamped 64-bit target is the clamped distance exactly when the sum does not overflow. */
  lemma DistanceIsExact(at: nat, delta: int, size: nat)
    requires at < size <= MAX_INT && -MAX_INT - 1 <= delta <= MAX_INT
    ensures Clamp(Add64(at, delta), size - 1) == Clamp(at + delta, size - 1) <==> at + delta <= MAX_INT || size == 1
  {
  }

  /** Moving the last of two videos down by the greatest distance overflows, and it lands in front. */
  lemma HugeMoveGoesToFront()
    ensures var order := ["a", "b"];
            && |Without(order, "b")| == 1
            && MoveTo(order, "b", Clamp(Add64(1, MAX_INT), 1)) == ["b", "a"]
            && MoveTo(order, "b", Clamp(1 + MAX_INT, 1)) == order
  {
    var order := ["a", "b"];
    assert order[..1] == ["a"];
    assert Without(["a"], "b") == ["a"];
    assert Without(order, "b") == ["a"];
  }

  /** Moving videos to another playlist takes them out of the one and gives them to the other, nothing else. */
  lemma MoveConserves(source: seq<string>, target: seq<string>, ids: seq<string>)
    requires Distinct(source) && Distinct(target)
    ensures forall x :: x in WithoutAll(source, ids) <==> x in source && x !in ids
    ensures AppendNew(target, ids) == target + NewIds(target, ids)
    ensures forall x :: x in source || x in target ==> x in WithoutAll(source, ids) || x in AppendNew(target, ids)
  {
    WithoutAllIs(source, ids);
    AppendNewIs(target, ids);
  }

  /**
  Moving videos onto their own playlist puts them at its end. It changes nothing exactly when the
  playlist already ended with the listed videos, in the order of their first mention.
  */
  lemma MoveOntoItself(order: seq<string>, ids: seq<string>)
    requires Distinct(order)
    ensures AppendNew(WithoutAll(order, ids), ids) == WithoutAll(order, ids) + FirstOccurrences(ids)
    ensures AppendNew(WithoutAll(order, ids), ids) == order <==>
        && |FirstOccurrences(ids)| <= |order|
        && order[|order| - |FirstOccurrences(ids)|..] == FirstOccurrences(ids)
  {
    var rest, first := WithoutAll(order, ids), FirstOccurrences(ids);
    WithoutAllIs(order, ids);
    AppendNewIs(rest, ids);
    FirstOccurrencesIs(ids);
    NewIdsApart(rest, ids);
    assert AppendNew(rest, ids) == rest + first;
    if |first| <= |order| && order[|order| - |first|..] == first {
      KeepsFront(order, ids, |order| - |first|);
    }
    assert (rest + first)[|rest|..] == first;
  }

  /** Ids that are not in the order are all new. */
  lemma {:induction false} NewIdsApart(order: seq<string>, ids: seq<string>)
    requires forall x :: x in ids ==> x !in order
    ensures NewIds(order, ids) == FirstOccurrences(ids)
  {
    if ids != [] {
      assert forall x :: x in ids[..|ids| - 1] ==> x in ids;
      NewIdsApart(order, ids[..|ids| - 1]);
    }
  }

  /** If the members behind position n are the listed ones, removing the list keeps the first n. */
  lemma KeepsFront(order: seq<string>, ids: seq<string>, n: nat)
    requires Distinct(order) && n <= |order|
    requires forall x :: x in order[n..] <==> x in ids
    ensures WithoutAll(order, ids) + order[n..] == order
  {
    assert forall i :: n <= i < |order| ==> order[i] == order[n..][i - n];
    forall i | 0 <= i < n ensures order[i] !in ids {
      assert order[i] !in order[n..];
    }
    FilterFront(order, ids, n);
  }

  lemma {:induction false} FilterFront(order: seq<string>, ids: seq<string>, n: nat)
    requires n <= |order|
    requires forall i :: 0 <= i < n ==> order[i] !in ids
    requires forall i :: n <= i < |order| ==> order[i] in ids
    ensures WithoutAll(order, ids) == order[..n]
  {
    if n < |order| {
      FilterFront(order[..|order| - 1], ids, n);
      assert order[..|order| - 1][..n] == order[..n];
    } else if order != [] {
      FilterFront(order[..|order| - 1], ids, n - 1);
      assert order[..|order| - 1][..n - 1] == order[..n - 1];
    }
  }
}
