/**
Tables whose rows carry an owner, a member and a position column: the playlist items and the playback
queue (internal/storage). A table is a map from the primary key; the order it stands for is a sequence
of members. The statements that read or rewrite positions are here, once for both tables.
*/
module OrderedRows {
  import opened Wrappers

  datatype Slot = Slot(owner: string, member: string)

  datatype Cell<D> = Cell(position: int, data: D)

  type Rows<D> = map<Slot, Cell<D>>

  ghost predicate Distinct(s: seq<string>) {
    forall i, j :: 0 <= i < j < |s| ==> s[i] != s[j]
  }

  ghost predicate SameMembers<D>(rows: Rows<D>, owner: string, order: seq<string>) {
    forall member :: Slot(owner, member) in rows <==> member in order
  }

  /** The rows of an owner, read by ascending position, are `order`. */
  ghost predicate Arranged<D>(rows: Rows<D>, owner: string, order: seq<string>) {
    && Distinct(order)
    && SameMembers(rows, owner, order)
    && forall i, j :: 0 <= i < j < |order| ==>
         rows[Slot(owner, order[i])].position < rows[Slot(owner, order[j])].position
  }

  /** The rows of an owner stand for `order` with the dense positions 0..n-1. */
  ghost predicate Represents<D>(rows: Rows<D>, owner: string, order: seq<string>) {
    && Distinct(order)
    && SameMembers(rows, owner, order)
    && forall i :: 0 <= i < |order| ==> rows[Slot(owner, order[i])].position == i
  }

  /** Nothing changed for other owners. */
  ghost predicate OthersKept<D>(before: Rows<D>, after: Rows<D>, owner: string) {
    forall slot: Slot :: slot.owner != owner ==>
      (slot in before <==> slot in after) && (slot in before ==> before[slot] == after[slot])
  }

  /** The same rows with the same data: at most positions changed. */
  ghost predicate OnlyPositions<D>(before: Rows<D>, after: Rows<D>) {
    before.Keys == after.Keys && forall slot :: slot in before ==> before[slot].data == after[slot].data
  }

  lemma DenseIsArranged<D>(rows: Rows<D>, owner: string, order: seq<string>)
    requires Represents(rows, owner, order)
    ensures Arranged(rows, owner, order)
  {
  }

  /** Two sequences without repetition that hold the same members are equally long. */
  lemma SameLength(a: seq<string>, b: seq<string>)
    requires Distinct(a) && Distinct(b) && forall x :: x in a <==> x in b
    ensures |a| == |b|
  {
    DistinctSize(a);
    DistinctSize(b);
    assert (set x | x in a) == (set x | x in b);
  }

  lemma {:induction false} DistinctSize(s: seq<string>)
    requires Distinct(s)
    ensures |set x | x in s| == |s|
  {
    if s != [] {
      var front, last := s[..|s| - 1], s[|s| - 1];
      DistinctSize(front);
      assert last !in front;
      assert (set x | x in s) == (set x | x in front) + {last};
    }
  }

  /** A table is arranged in at most one order. */
  lemma ArrangedOnce<D>(rows: Rows<D>, owner: string, a: seq<string>, b: seq<string>)
    requires Arranged(rows, owner, a) && Arranged(rows, owner, b)
    ensures a == b
  {
    assert forall x :: x in a <==> Slot(owner, x) in rows;
    SameLength(a, b);
    for k := 0 to |a|
      invariant a[..k] == b[..k]
    {
      SamePlace(rows, owner, a, b, k);
    }
  }

  lemma SamePlace<D>(rows: Rows<D>, owner: string, a: seq<string>, b: seq<string>, k: nat)
    requires Arranged(rows, owner, a) && Arranged(rows, owner, b)
    requires k < |a| == |b| && a[..k] == b[..k]
    ensures a[k] == b[k]
  {
    assert Slot(owner, a[k]) in rows && Slot(owner, b[k]) in rows;
    var j :| 0 <= j < |b| && b[j] == a[k];
    var i :| 0 <= i < |a| && a[i] == b[k];
    assert forall t :: 0 <= t < k ==> a[t] == a[..k][t] == b[t];
    assert k <= j && k <= i;
  }

  // ---------------------------------------------------------------- SELECT statements

  function Members<D>(rows: Rows<D>, owner: string): set<string> {
    set slot | slot in rows && slot.owner == owner :: slot.member
  }

  /** The member with the smallest position among those not listed yet. */
  method FirstByPosition<D>(rows: Rows<D>, owner: string, left: set<string>) returns (first: string)
    requires left != {} && forall m :: m in left ==> Slot(owner, m) in rows
    ensures first in left
    ensures forall m :: m in left ==> rows[Slot(owner, first)].position <= rows[Slot(owner, m)].position
  {
    first :| first in left;
    var todo := left - {first};
    while todo != {}
      invariant first in left && todo <= left
      invariant forall m :: m in left && m !in todo ==>
          rows[Slot(owner, first)].position <= rows[Slot(owner, m)].position
      decreases todo
    {
      var m :| m in todo;
      if rows[Slot(owner, m)].position < rows[Slot(owner, first)].position {
        first := m;
      }
      todo := todo - {m};
    }
  }

  ghost predicate DistinctPositions<D>(rows: Rows<D>, owner: string) {
    forall m, m' :: Slot(owner, m) in rows && Slot(owner, m') in rows && m != m' ==>
      rows[Slot(owner, m)].position != rows[Slot(owner, m')].position
  }

  /** SELECT member ... WHERE owner = ? ORDER BY position. */
  method SelectOrdered<D>(rows: Rows<D>, owner: string) returns (order: seq<string>)
    ensures Distinct(order) && SameMembers(rows, owner, order)
    ensures DistinctPositions(rows, owner) ==> Arranged(rows, owner, order)
  {
    order := [];
    var left := Members(rows, owner);
    while left != {}
      invariant forall m :: Slot(owner, m) in rows <==> m in left || m in order
      invariant forall m :: m in order ==> m !in left
      invariant Distinct(order)
      invariant forall i, m :: 0 <= i < |order| && m in left ==>
                  rows[Slot(owner, order[i])].position <= rows[Slot(owner, m)].position
      invariant forall i, j :: 0 <= i < j < |order| ==>
                  rows[Slot(owner, order[i])].position <= rows[Slot(owner, order[j])].position
      decreases left
    {
      var first := FirstByPosition(rows, owner, left);
      order := order + [first];
      left := left - {first};
    }
  }

  /** On arranged rows the SELECT returns the order they stand for. */
  lemma SelectedOrder<D>(rows: Rows<D>, owner: string, order: seq<string>, selected: seq<string>)
    requires Arranged(rows, owner, order)
    requires DistinctPositions(rows, owner) ==> Arranged(rows, owner, selected)
    ensures selected == order
  {
    forall m, m' | Slot(owner, m) in rows && Slot(owner, m') in rows && m != m'
      ensures rows[Slot(owner, m)].position != rows[Slot(owner, m')].position
    {
      var i :| 0 <= i < |order| && order[i] == m;
      var j :| 0 <= j < |order| && order[j] == m';
      if i < j {
        assert rows[Slot(owner, order[i])].position < rows[Slot(owner, order[j])].position;
      } else {
        assert rows[Slot(owner, order[j])].position < rows[Slot(owner, order[i])].position;
      }
    }
    ArrangedOnce(rows, owner, order, selected);
  }

  /** SELECT MAX(position) ... WHERE owner = ?; None stands for SQL NULL. */
  method MaxPosition<D>(rows: Rows<D>, owner: string) returns (max: Option<int>)
    ensures max.None? <==> Members(rows, owner) == {}
    ensures max.Some? ==> exists m :: Slot(owner, m) in rows && rows[Slot(owner, m)].position == max.value
    ensures max.Some? ==> forall m :: Slot(owner, m) in rows ==> rows[Slot(owner, m)].position <= max.value
  {
    max := None;
    var left := Members(rows, owner);
    if left == {} {
      return;
    }
    var m :| m in left;
    var best := m;
    left := left - {m};
    while left != {}
      invariant left <= Members(rows, owner) && Slot(owner, best) in rows
      invariant forall m :: Slot(owner, m) in rows && m !in left ==>
          rows[Slot(owner, m)].position <= rows[Slot(owner, best)].position
      decreases left
    {
      m :| m in left;
      if rows[Slot(owner, best)].position < rows[Slot(owner, m)].position {
        best := m;
      }
      left := left - {m};
    }
    max := Some(rows[Slot(owner, best)].position);
  }

  /** On dense rows the maximum is the last position. */
  lemma MaxOfDense<D>(rows: Rows<D>, owner: string, order: seq<string>, max: Option<int>)
    requires Represents(rows, owner, order)
    requires max.None? <==> Members(rows, owner) == {}
    requires max.Some? ==> exists m :: Slot(owner, m) in rows && rows[Slot(owner, m)].position == max.value
    requires max.Some? ==> forall m :: Slot(owner, m) in rows ==> rows[Slot(owner, m)].position <= max.value
    ensures (if max.None? then 0 else max.value + 1) == |order|
  {
    if order == [] {
      assert Members(rows, owner) == {};
    } else {
      assert Slot(owner, order[|order| - 1]) in rows;
      assert order[|order| - 1] in Members(rows, owner);
    }
  }

  // ---------------------------------------------------------------- UPDATE statements

  /** UPDATE ... SET position = f(position) WHERE owner = ?. */
  function Reposition<D>(rows: Rows<D>, owner: string, f: int -> int): (after: Rows<D>)
    ensures after.Keys == rows.Keys
    ensures OnlyPositions(rows, after) && OthersKept(rows, after, owner)
  {
    map slot | slot in rows ::
      if slot.owner == owner then rows[slot].(position := f(rows[slot].position)) else rows[slot]
  }

  function WithPosition<D>(rows: Rows<D>, slot: Slot, position: int): Rows<D> {
    if slot in rows then rows[slot := rows[slot].(position := position)] else rows
  }

  /** Writing the index of every listed member as its position. */
  method Renumber<D>(rows: Rows<D>, owner: string, order: seq<string>) returns (after: Rows<D>)
    requires Distinct(order) && SameMembers(rows, owner, order)
    ensures Represents(after, owner, order)
    ensures OnlyPositions(rows, after) && OthersKept(rows, after, owner)
  {
    after := rows;
    for i := 0 to |order|
      invariant OnlyPositions(rows, after) && OthersKept(rows, after, owner)
      invariant forall k :: 0 <= k < i ==> after[Slot(owner, order[k])].position == k
    {
      after := WithPosition(after, Slot(owner, order[i]), i);
    }
  }

  /** Dense rows are determined by their order and their data. */
  lemma DenseRowsAgree<D>(base: Rows<D>, a: Rows<D>, b: Rows<D>, owner: string, order: seq<string>)
    requires Represents(a, owner, order) && Represents(b, owner, order)
    requires OnlyPositions(base, a) && OthersKept(base, a, owner)
    requires OnlyPositions(base, b) && OthersKept(base, b, owner)
    ensures a == b
  {
    forall slot | slot in a ensures a[slot] == b[slot] {
      if slot.owner == owner {
        assert slot == Slot(owner, slot.member);
        var i :| 0 <= i < |order| && order[i] == slot.member;
      }
    }
  }

  // ---------------------------------------------------------------- operations on orders

  /** The order without one member. */
  function Without(order: seq<string>, member: string): (r: seq<string>)
    ensures forall x :: x in r <==> x in order && x != member
  {
    if order == [] then []
    else if order[|order| - 1] == member then Without(order[..|order| - 1], member)
    else Without(order[..|order| - 1], member) + [order[|order| - 1]]
  }

  lemma {:induction false} WithoutDistinct(order: seq<string>, member: string)
    requires Distinct(order)
    ensures Distinct(Without(order, member))
  {
    if order != [] {
      var front, last := order[..|order| - 1], order[|order| - 1];
      WithoutDistinct(front, member);
      assert last !in front;
      AppendDistinct(Without(front, member), last);
    }
  }

  lemma AppendDistinct(s: seq<string>, x: string)
    requires Distinct(s) && x !in s
    ensures Distinct(s + [x])
  {
  }

  /** Where the members of a distinct order end up when one of them is taken out. */
  lemma {:induction false} WithoutAt(order: seq<string>, at: nat)
    requires Distinct(order) && at < |order|
    ensures Without(order, order[at]) == order[..at] + order[at + 1..]
  {
    var front, last := order[..|order| - 1], order[|order| - 1];
    if at == |order| - 1 {
      WithoutAbsent(front, last);
    } else {
      WithoutAt(front, at);
      assert order[at + 1..] == front[at + 1..] + [last];
    }
  }

  lemma {:induction false} WithoutAbsent(order: seq<string>, member: string)
    requires member !in order
    ensures Without(order, member) == order
  {
    if order != [] {
      WithoutAbsent(order[..|order| - 1], member);
    }
  }

  /** Taking a member out and putting it back at an index. */
  function MoveTo(order: seq<string>, member: string, index: nat): seq<string>
    requires index <= |Without(order, member)|
  {
    var rest := Without(order, member);
    rest[..index] + [member] + rest[index..]
  }

  /** The members that satisfy a condition, in their order. */
  function Filtered(order: seq<string>, keep: string -> bool): (r: seq<string>)
    ensures forall x :: x in r <==> x in order && keep(x)
  {
    if order == [] then []
    else Filtered(order[..|order| - 1], keep) + if keep(order[|order| - 1]) then [order[|order| - 1]] else []
  }

  lemma {:induction false} WithoutIsFiltered(order: seq<string>, member: string)
    ensures Without(order, member) == Filtered(order, x => x != member)
  {
    if order != [] {
      WithoutIsFiltered(order[..|order| - 1], member);
    }
  }

  /** Ascending positions along a list of members. */
  ghost predicate Ascending<D>(rows: Rows<D>, owner: string, order: seq<string>) {
    forall i, j :: 0 <= i < j < |order| && Slot(owner, order[i]) in rows && Slot(owner, order[j]) in rows ==>
                   rows[Slot(owner, order[i])].position < rows[Slot(owner, order[j])].position
  }

  lemma {:induction false} FilteredAscends<D>(rows: Rows<D>, owner: string, order: seq<string>, keep: string -> bool)
    requires Ascending(rows, owner, order) && Distinct(order)
    ensures Ascending(rows, owner, Filtered(order, keep)) && Distinct(Filtered(order, keep))
  {
    if order != [] {
      var front, last := order[..|order| - 1], order[|order| - 1];
      FilteredAscends(rows, owner, front, keep);
      forall x | x in Filtered(front, keep)
        ensures x != last
        ensures Slot(owner, x) in rows && Slot(owner, last) in rows ==>
                rows[Slot(owner, x)].position < rows[Slot(owner, last)].position
      {
        var i :| 0 <= i < |front| && front[i] == x;
        assert order[i] == x;
      }
    }
  }

  /** Deleting rows leaves the others arranged in the order they had. */
  lemma DeletedIsArranged<D>(before: Rows<D>, after: Rows<D>, owner: string, order: seq<string>, keep: string -> bool)
    requires Arranged(before, owner, order)
    requires forall m :: Slot(owner, m) in after <==> Slot(owner, m) in before && keep(m)
    requires forall m :: Slot(owner, m) in after ==> after[Slot(owner, m)].position == before[Slot(owner, m)].position
    ensures Arranged(after, owner, Filtered(order, keep))
  {
    FilteredAscends(before, owner, order, keep);
  }

  /** A row written behind the last position is the last of the order, wherever it stood before. */
  lemma WrittenLast<D>(before: Rows<D>, after: Rows<D>, owner: string, order: seq<string>, member: string, next: int)
    requires Arranged(before, owner, order)
    requires after.Keys == before.Keys + {Slot(owner, member)} && after[Slot(owner, member)].position == next
    requires forall slot :: slot in before && slot != Slot(owner, member) ==> after[slot] == before[slot]
    requires forall m :: Slot(owner, m) in before ==> before[Slot(owner, m)].position < next
    ensures Arranged(after, owner, Without(order, member) + [member])
  {
    WithoutIsFiltered(order, member);
    FilteredAscends(before, owner, order, x => x != member);
    hide Without, Filtered;
    AppendDistinct(Without(order, member), member);
  }

  lemma WithoutLength(order: seq<string>, member: string)
    requires Distinct(order)
    ensures |Without(order, member)| == if member in order then |order| - 1 else |order|
  {
    if member in order {
      var at :| 0 <= at < |order| && order[at] == member;
      WithoutAt(order, at);
    } else {
      WithoutAbsent(order, member);
    }
  }
}
