/** The order in which recalc_node hands its affected nodes to the change queue: the
    min-heap change_order (std::push_heap / std::pop_heap with std::greater) releases
    the collected ids smallest first.  Only that order is modelled, not the heap layout. */
module ChangeOrder {

  predicate Ascending(s: seq<nat>) {
    forall i, j :: 0 <= i < j < |s| ==> s[i] <= s[j]
  }

  /** Inserts x into an ascending sequence. */
  function Insert(x: nat, s: seq<nat>): (r: seq<nat>)
    requires Ascending(s)
    ensures |r| == |s| + 1
    ensures r[0] == x || (s != [] && r[0] == s[0])
    ensures Ascending(r)
    ensures multiset(r) == multiset(s) + multiset{x}
    decreases |s|
  {
    if s == [] then [x]
    else if x <= s[0] then [x] + s
    else
      assert s == [s[0]] + s[1..];
      var t := Insert(x, s[1..]);
      assert s[0] <= t[0];
      [s[0]] + t
  }

  /** The ids of s, smallest first: the order in which commit_ordered_changes pops them. */
  function Sorted(s: seq<nat>): (r: seq<nat>)
    ensures Ascending(r)
    ensures multiset(r) == multiset(s)
    decreases |s|
  {
    if s == [] then []
    else
      assert s == s[..|s| - 1] + [s[|s| - 1]];
      Insert(s[|s| - 1], Sorted(s[..|s| - 1]))
  }

  /** Two ascending sequences with the same elements are equal, so the pop order of the heap
      is determined by what was pushed into it. */
  lemma {:induction false} AscendingUnique(a: seq<nat>, b: seq<nat>)
    requires Ascending(a) && Ascending(b)
    requires multiset(a) == multiset(b)
    ensures a == b
    decreases |a|
  {
    if a != [] {
      assert |b| == |multiset(b)| == |multiset(a)| == |a|;
      assert a[0] in multiset(b) && b[0] in multiset(a);
      HeadIsLeast(a, b[0]);
      HeadIsLeast(b, a[0]);
      var ta, tb := a[1..], b[1..];
      assert a[0] == b[0];
      MultisetTail(a);
      MultisetTail(b);
      AscendingUnique(ta, tb);
      assert a == [a[0]] + ta && b == [b[0]] + tb;
    } else {
      assert |b| == |multiset(b)| == 0;
    }
  }

  lemma MultisetTail(a: seq<nat>)
    requires a != []
    ensures multiset(a[1..]) == multiset(a) - multiset{a[0]}
    ensures Ascending(a) ==> Ascending(a[1..])
  {
    assert a == [a[0]] + a[1..];
  }

  lemma HeadIsLeast(a: seq<nat>, y: nat)
    requires Ascending(a) && y in multiset(a)
    ensures a[0] <= y
  {
    var i :| 0 <= i < |a| && a[i] == y;
  }

  /** Removing the element at index k. */
  function RemoveAt(s: seq<nat>, k: nat): (r: seq<nat>)
    requires k < |s|
    ensures |r| == |s| - 1
    ensures forall i :: 0 <= i < |r| ==> r[i] == if i < k then s[i] else s[i + 1]
    ensures multiset(r) + multiset{s[k]} == multiset(s)
  {
    assert s == s[..k] + [s[k]] + s[k + 1..];
    s[..k] + s[k + 1..]
  }

  /** The index of a least element: the id std::pop_heap moves out of a min-heap. */
  function ArgMin(s: seq<nat>): (k: nat)
    requires s != []
    ensures k < |s|
    ensures forall j :: 0 <= j < |s| ==> s[k] <= s[j]
    decreases |s|
  {
    if |s| == 1 then 0
    else
      var k0 := ArgMin(s[1..]);
      if s[0] <= s[1 + k0] then 0 else 1 + k0
  }

  /** Taking a least element out first and sorting the rest gives the sorted sequence. */
  lemma SortedHead(s: seq<nat>, k: nat)
    requires k < |s|
    requires forall j :: 0 <= j < |s| ==> s[k] <= s[j]
    ensures Sorted(s) == [s[k]] + Sorted(RemoveAt(s, k))
  {
    var others := RemoveAt(s, k);
    forall i | 0 <= i < |others|
      ensures s[k] <= others[i]
    {
      if i < k { assert others[i] == s[i]; } else { assert others[i] == s[i + 1]; }
    }
    var rest := Sorted(others);
    LowerBound(s[k], others, rest);
    AscendingCons(s[k], rest);
    var t := [s[k]] + rest;
    assert multiset(t) == multiset{s[k]} + multiset(others);
    AscendingUnique(Sorted(s), t);
  }

  /** The same for the least element ArgMin finds: what one pop of the heap does. */
  lemma SortedArgMin(s: seq<nat>)
    requires s != []
    ensures Sorted(s) == [s[ArgMin(s)]] + Sorted(RemoveAt(s, ArgMin(s)))
  {
    SortedHead(s, ArgMin(s));
  }

  /** A bound on every element of a sequence bounds every element of a permutation of it. */
  lemma LowerBound(x: nat, a: seq<nat>, b: seq<nat>)
    requires multiset(a) == multiset(b)
    requires forall i :: 0 <= i < |a| ==> x <= a[i]
    ensures forall i :: 0 <= i < |b| ==> x <= b[i]
  {
    forall i | 0 <= i < |b|
      ensures x <= b[i]
    {
      assert b[i] in multiset(a);
      var j :| 0 <= j < |a| && a[j] == b[i];
    }
  }

  lemma AscendingCons(x: nat, s: seq<nat>)
    requires Ascending(s)
    requires forall i :: 0 <= i < |s| ==> x <= s[i]
    ensures Ascending([x] + s)
  {
  }
}
