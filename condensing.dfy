/**
 * The condenser used when a pattern is built: nulls are dropped, stacks of the
 * same kind are merged by adding their sizes, and the merged stacks are sorted
 * by size, largest first. An empty result is an error.
 */
module Condensing {
  import opened Wrappers
  import opened Items

  const NO_PATTERN_HERE: string := "No pattern here!"

  /** Sum of the sizes of the non-null entries of `xs` whose kind is `k`. */
  function TotalCount(xs: seq<Option<Stack>>, k: ItemKind): int
  {
    if xs == [] then 0
    else
      TotalCount(xs[..|xs| - 1], k) +
      (match xs[|xs| - 1]
       case Some(s) => if s.kind == k then s.count else 0
       case None => 0)
  }

  /** The kinds of the non-null entries of `xs`. */
  ghost function Kinds(xs: seq<Option<Stack>>): set<ItemKind>
  {
    set i | 0 <= i < |xs| && xs[i].Some? :: xs[i].value.kind
  }

  /** The kinds of the stacks in `list`. */
  ghost function KindsOf(list: seq<Stack>): set<ItemKind>
  {
    set e | e in list :: e.kind
  }

  /** No two stacks of `list` have the same kind. */
  ghost predicate Distinct(list: seq<Stack>)
  {
    forall i, j :: 0 <= i < j < |list| ==> list[i].kind != list[j].kind
  }

  /** Stack sizes never increase along `list`. */
  ghost predicate SortedBySize(list: seq<Stack>)
  {
    forall i, j :: 0 <= i < j < |list| ==> list[i].count >= list[j].count
  }

  /** Some entry of `xs` is non-null. */
  predicate AnyPresent(xs: seq<Option<Stack>>)
  {
    exists i :: 0 <= i < |xs| && xs[i].Some?
  }

  /** `list` is a condensed form of `xs`: one stack per kind, largest first, each holding the total for its kind. */
  ghost predicate CondensedFrom(xs: seq<Option<Stack>>, list: seq<Stack>)
  {
    && Distinct(list)
    && SortedBySize(list)
    && KindsOf(list) == Kinds(xs)
    && (forall e :: e in list ==> e.count == TotalCount(xs, e.kind))
  }

  /** The size of the first stack of kind `k` in `list`, 0 when there is none. */
  function CountOf(list: seq<Stack>, k: ItemKind): int
  {
    if list == [] then 0
    else if list[0].kind == k then list[0].count
    else CountOf(list[1..], k)
  }

  /** In a list without repeated kinds, a stack's size is the size recorded for its kind. */
  lemma {:induction false} CountOfMember(list: seq<Stack>, e: Stack)
    requires Distinct(list) && e in list
    ensures CountOf(list, e.kind) == e.count
  {
    if list[0] != e {
      assert e in list[1..];
      var j :| 0 <= j < |list[1..]| && list[1..][j] == e;
      assert list[j + 1] == e;
      CountOfMember(list[1..], e);
    }
  }

  lemma KindsOfCons(x: Stack, s: seq<Stack>)
    ensures KindsOf([x] + s) == {x.kind} + KindsOf(s)
  {
    assert forall e :: e in [x] + s <==> e == x || e in s;
  }

  lemma DistinctCons(x: Stack, s: seq<Stack>)
    ensures Distinct([x] + s) <==> Distinct(s) && x.kind !in KindsOf(s)
  {
    var r := [x] + s;
    if Distinct(r) {
      forall i, j | 0 <= i < j < |s| ensures s[i].kind != s[j].kind {
        assert r[i + 1] == s[i] && r[j + 1] == s[j];
      }
      forall e | e in s ensures e.kind != x.kind {
        var j :| 0 <= j < |s| && s[j] == e;
        assert r[0] == x && r[j + 1] == e;
      }
    }
    if Distinct(s) && x.kind !in KindsOf(s) {
      forall i, j | 0 <= i < j < |r| ensures r[i].kind != r[j].kind {
        assert r[j] == s[j - 1];
        if i > 0 { assert r[i] == s[i - 1]; }
      }
    }
  }

  /** Adds one stack to the merged map: into the entry of its kind, or as a new entry. */
  function Absorb(acc: seq<Stack>, s: Stack): (r: seq<Stack>)
    ensures Distinct(acc) ==> Distinct(r)
    ensures KindsOf(r) == KindsOf(acc) + {s.kind}
    ensures forall k :: CountOf(r, k) == CountOf(acc, k) + (if k == s.kind then s.count else 0)
  {
    if acc == [] then [s]
    else
      var head, tail := acc[0], acc[1..];
      assert acc == [head] + tail;
      KindsOfCons(head, tail);
      DistinctCons(head, tail);
      if head.kind == s.kind then
        var merged := head.(count := head.count + s.count);
        KindsOfCons(merged, tail);
        DistinctCons(merged, tail);
        [merged] + tail
      else
        var rest := Absorb(tail, s);
        KindsOfCons(head, rest);
        DistinctCons(head, rest);
        [head] + rest
  }

  lemma KindsOfLast(xs: seq<Option<Stack>>)
    requires xs != []
    ensures Kinds(xs) == Kinds(xs[..|xs| - 1]) +
      (if xs[|xs| - 1].Some? then {xs[|xs| - 1].value.kind} else {})
  {
    var p := xs[..|xs| - 1];
    forall k | k in Kinds(xs)
      ensures k in Kinds(p) || (xs[|xs| - 1].Some? && k == xs[|xs| - 1].value.kind)
    {
      var i :| 0 <= i < |xs| && xs[i].Some? && xs[i].value.kind == k;
      if i < |xs| - 1 { assert p[i] == xs[i]; }
    }
    forall k | k in Kinds(p) ensures k in Kinds(xs) {
      var i :| 0 <= i < |p| && p[i].Some? && p[i].value.kind == k;
      assert xs[i] == p[i];
    }
  }

  /** The merged map of the stream: one entry per kind, holding that kind's total size. */
  function Collect(xs: seq<Option<Stack>>): (r: seq<Stack>)
    ensures Distinct(r)
    ensures KindsOf(r) == Kinds(xs)
    ensures forall k :: CountOf(r, k) == TotalCount(xs, k)
  {
    if xs == [] then []
    else
      KindsOfLast(xs);
      match xs[|xs| - 1]
      case None => Collect(xs[..|xs| - 1])
      case Some(s) => Absorb(Collect(xs[..|xs| - 1]), s)
  }

  /** Inserts `x` into a list sorted by decreasing size, before the first smaller-or-equal stack. */
  function InsertBySize(x: Stack, sorted: seq<Stack>): (r: seq<Stack>)
    requires SortedBySize(sorted)
    ensures SortedBySize(r)
    ensures multiset(r) == multiset(sorted) + multiset{x}
  {
    if sorted == [] || x.count >= sorted[0].count then [x] + sorted
    else
      var rest := InsertBySize(x, sorted[1..]);
      assert sorted == [sorted[0]] + sorted[1..];
      HeadBoundsInsert(x, sorted[0], sorted[1..], rest);
      [sorted[0]] + rest
  }

  /** The head of a sorted list stays first when a smaller stack is inserted behind it. */
  lemma HeadBoundsInsert(x: Stack, head: Stack, tail: seq<Stack>, rest: seq<Stack>)
    requires SortedBySize([head] + tail) && SortedBySize(rest)
    requires x.count < head.count
    requires multiset(rest) == multiset(tail) + multiset{x}
    ensures SortedBySize([head] + rest)
  {
    var r := [head] + rest;
    forall i, j | 0 <= i < j < |r| ensures r[i].count >= r[j].count {
      if i == 0 {
        var e := r[j];
        assert e == rest[j - 1];
        assert e in multiset(rest);
        if e != x {
          assert e in tail;
          var m :| 0 <= m < |tail| && tail[m] == e;
          assert ([head] + tail)[0] == head && ([head] + tail)[m + 1] == e;
        }
      } else {
        assert r[i] == rest[i - 1] && r[j] == rest[j - 1];
      }
    }
  }

  /** Insertion sort by decreasing size (the order among equal sizes is not specified by the source). */
  function SortBySize(list: seq<Stack>): (r: seq<Stack>)
    ensures SortedBySize(r)
    ensures multiset(r) == multiset(list)
  {
    if list == [] then []
    else
      assert list == [list[0]] + list[1..];
      InsertBySize(list[0], SortBySize(list[1..]))
  }

  /** A list without repeated kinds holds each stack at most once. */
  lemma {:induction false} DistinctOccursOnce(list: seq<Stack>, e: Stack)
    requires Distinct(list)
    ensures multiset(list)[e] <= 1
  {
    if list != [] {
      assert list == [list[0]] + list[1..];
      DistinctCons(list[0], list[1..]);
      DistinctOccursOnce(list[1..], e);
      if list[0] == e {
        assert e !in list[1..];
      }
    }
  }

  /** Two different stacks of a list without repeated kinds have different kinds. */
  lemma DistinctMembers(list: seq<Stack>, x: Stack, y: Stack)
    requires Distinct(list) && x in list && y in list && x != y
    ensures x.kind != y.kind
  {
    var p :| 0 <= p < |list| && list[p] == x;
    var q :| 0 <= q < |list| && list[q] == y;
    if p > q {
      assert list[q].kind != list[p].kind;
    }
  }

  /** Reordering a list keeps its kinds, and keeps them distinct. */
  lemma PermutationKeepsKinds(a: seq<Stack>, b: seq<Stack>)
    requires multiset(a) == multiset(b)
    ensures KindsOf(a) == KindsOf(b)
    ensures Distinct(a) ==> Distinct(b)
  {
    assert forall e :: e in a <==> e in b by {
      forall e ensures e in a <==> e in b {
        assert e in a <==> e in multiset(a);
        assert e in b <==> e in multiset(b);
      }
    }
    if Distinct(a) {
      forall i, j | 0 <= i < j < |b| ensures b[i].kind != b[j].kind {
        if b[i].kind == b[j].kind {
          if b[i] == b[j] {
            assert b == b[..j] + b[j..];
            assert b[..j][i] == b[i] && b[j..][0] == b[j];
            assert multiset(b)[b[i]] == multiset(b[..j])[b[i]] + multiset(b[j..])[b[i]];
            DistinctOccursOnce(a, b[i]);
            assert false;
          } else {
            DistinctMembers(a, b[i], b[j]);
          }
        }
      }
    }
  }

  /**
   * condenseStacks: the merged, size-sorted list, or the "No pattern here!"
   * failure exactly when every entry is null.
   */
  function Condense(xs: seq<Option<Stack>>): (r: Result<seq<Stack>>)
    ensures r.Err? <==> forall i :: 0 <= i < |xs| ==> xs[i].None?
    ensures r.Ok? <==> AnyPresent(xs)
    ensures r.Err? ==> r.error == IllegalState(NO_PATTERN_HERE)
    ensures r.Ok? ==> CondensedFrom(xs, r.value)
  {
    var collected := Collect(xs);
    var merged := SortBySize(collected);
    PermutationKeepsKinds(collected, merged);
    assert forall e :: e in merged ==> e in collected by {
      forall e | e in merged ensures e in collected { assert e in multiset(merged); }
    }
    assert forall e :: e in merged ==> e.count == TotalCount(xs, e.kind) by {
      forall e | e in merged ensures e.count == TotalCount(xs, e.kind) {
        CountOfMember(collected, e);
      }
    }
    assert (forall i :: 0 <= i < |xs| ==> xs[i].None?) <==> Kinds(xs) == {} by {
      if exists i :: 0 <= i < |xs| && xs[i].Some? {
        var i :| 0 <= i < |xs| && xs[i].Some?;
        assert xs[i].value.kind in Kinds(xs);
      }
    }
    assert merged == [] <==> KindsOf(merged) == {} by {
      if merged != [] { assert merged[0].kind in KindsOf(merged); }
    }
    if merged == [] then Err(IllegalState(NO_PATTERN_HERE)) else Ok(merged)
  }

  /** Inputs [A x2, A x3, B x1] condense to [A x5, B x1]. */
  lemma CondenseExample(a: ItemKind, b: ItemKind)
    requires a != b
    ensures Condense([Some(Stack(a, 2)), Some(Stack(a, 3)), Some(Stack(b, 1))])
         == Ok([Stack(a, 5), Stack(b, 1)])
  {
    var xs := [Some(Stack(a, 2)), Some(Stack(a, 3)), Some(Stack(b, 1))];
    assert xs[..2] == [Some(Stack(a, 2)), Some(Stack(a, 3))];
    assert xs[..2][..1] == [Some(Stack(a, 2))];
    assert xs[..2][..1][..0] == [];
    assert Collect(xs[..2][..1]) == [Stack(a, 2)];
    assert Collect(xs[..2]) == [Stack(a, 5)];
    assert Absorb([Stack(a, 5)], Stack(b, 1)) == [Stack(a, 5)] + Absorb([], Stack(b, 1));
    assert Collect(xs) == [Stack(a, 5), Stack(b, 1)];
    assert SortBySize([Stack(b, 1)]) == [Stack(b, 1)];
  }
}
