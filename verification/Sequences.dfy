/** Facts about sequences, and about the sizes of sets and maps, that several components need. */
module Sequences {

  /** What a loop builds when it appends `f(x)` for every `x` in turn. */
  function FlatMap<A, B>(f: A -> seq<B>, s: seq<A>): seq<B> {
    if s == [] then [] else FlatMap(f, s[..|s| - 1]) + f(s[|s| - 1])
  }

  lemma {:induction false} FlatMapAppend<A, B>(f: A -> seq<B>, a: seq<A>, b: seq<A>)
    ensures FlatMap(f, a + b) == FlatMap(f, a) + FlatMap(f, b)
  {
    if b == [] {
      assert a + b == a;
    } else {
      assert (a + b)[..|a + b| - 1] == a + b[..|b| - 1];
      FlatMapAppend(f, a, b[..|b| - 1]);
    }
  }

  lemma FlatMapOne<A, B>(f: A -> seq<B>, x: A)
    ensures FlatMap(f, [x]) == f(x)
  {
    assert [x][..0] == [];
  }

  lemma FlatMapStep<A, B>(f: A -> seq<B>, s: seq<A>, i: nat)
    requires i < |s|
    ensures FlatMap(f, s[..i + 1]) == FlatMap(f, s[..i]) + f(s[i])
  {
    assert s[..i + 1][..i] == s[..i];
  }

  lemma {:induction false} FlatMapHas<A, B>(f: A -> seq<B>, s: seq<A>, i: nat, y: B)
    requires i < |s| && y in f(s[i])
    ensures y in FlatMap(f, s)
  {
    if i < |s| - 1 {
      assert s[..|s| - 1][i] == s[i];
      FlatMapHas(f, s[..|s| - 1], i, y);
    }
  }

  lemma {:induction false} FlatMapAll<A, B>(f: A -> seq<B>, s: seq<A>, y: B)
    requires y in FlatMap(f, s)
    ensures exists i :: 0 <= i < |s| && y in f(s[i])
  {
    var last := s[|s| - 1];
    if y !in f(last) {
      FlatMapAll(f, s[..|s| - 1], y);
      var i :| 0 <= i < |s| - 1 && y in f(s[..|s| - 1][i]);
      assert y in f(s[i]);
    }
  }

  lemma NothingMore<A>(s: seq<A>)
    ensures s + [] == s && [] + s == s
  {
  }

  lemma Associative<A>(a: seq<A>, b: seq<A>, c: seq<A>)
    ensures a + (b + c) == a + b + c
  {
  }

  lemma OneLonger<A>(longer: seq<A>, shorter: seq<A>, last: A)
    requires |longer| == |shorter| + 1 && longer[|shorter|] == last
    requires forall i :: 0 <= i < |shorter| ==> longer[i] == shorter[i]
    ensures longer == shorter + [last]
  {
  }

  /** The added-up measure of a sequence. */
  function Total<A>(size: A -> nat, s: seq<A>): nat {
    if s == [] then 0 else Total(size, s[..|s| - 1]) + size(s[|s| - 1])
  }

  lemma {:induction false} TotalAppend<A>(size: A -> nat, a: seq<A>, b: seq<A>)
    ensures Total(size, a + b) == Total(size, a) + Total(size, b)
  {
    if b == [] {
      assert a + b == a;
    } else {
      assert (a + b)[..|a + b| - 1] == a + b[..|b| - 1];
      TotalAppend(size, a, b[..|b| - 1]);
    }
  }

  /** A part is no larger than the whole, and as large only when it is the whole. */
  lemma {:induction false} SubsetSize<A>(part: set<A>, whole: set<A>)
    requires part <= whole
    ensures |part| <= |whole| && (|part| == |whole| ==> part == whole)
  {
    if part != {} {
      var x :| x in part;
      SubsetSize(part - {x}, whole - {x});
    } else if |part| == |whole| {
      assert whole == {};
    }
  }

  lemma KeysSize<K, V>(table: map<K, V>)
    ensures |table.Keys| == |table|
  {
  }

  lemma RemovedSize<K, V>(table: map<K, V>, key: K)
    requires key in table
    ensures |table - {key}| == |table| - 1
  {
    assert (table - {key}).Keys == table.Keys - {key};
    KeysSize(table - {key});
    KeysSize(table);
  }

  lemma SameSize<T>(a: set<T>, b: set<T>)
    requires a <= b && |a| == |b|
    ensures a == b
  {
    if k :| k in b && k !in a {
      SubsetSize(a + {k}, b);
    }
  }
}
