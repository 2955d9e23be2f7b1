/** Finite sets of ids in ascending order, as ORDER BY id returns them. */
module Ordering {
  import opened Common

  lemma {:induction false} LeastExists(s: set<Id>) returns (m: Id)
    requires s != {}
    ensures m in s && forall x :: x in s ==> m <= x
  {
    var some :| some in s;
    m := some;
    var rest := s - {some};
    if rest != {} {
      var n := LeastExists(rest);
      m := Min(some, n);
    }
    forall x | x in s
      ensures m <= x
    {
      assert x == some || x in rest;
    }
  }

  lemma SomeLeast(s: set<Id>)
    requires s != {}
    ensures exists m :: m in s && forall x :: x in s ==> m <= x
  {
    var m := LeastExists(s);
  }

  function Least(s: set<Id>): (m: Id)
    requires s != {}
    ensures m in s && forall x :: x in s ==> m <= x
  {
    SomeLeast(s);
    var m :| m in s && forall x :: x in s ==> m <= x;
    m
  }

  predicate Ascending(ids: seq<Id>) {
    forall i, j :: 0 <= i < j < |ids| ==> ids[i] < ids[j]
  }

  /** Every element of `s` once, in ascending order. */
  function Sorted(s: set<Id>): (ids: seq<Id>)
    ensures |ids| == |s| && Ascending(ids)
    ensures forall x :: x in ids <==> x in s
  {
    if s == {} then [] else
      var m := Least(s);
      var rest := Sorted(s - {m});
      assert forall i :: 0 <= i < |rest| ==> rest[i] in rest;
      [m] + rest
  }

  /** What comes after a prefix of an ascending list is larger. */
  lemma PrefixIsBelow(all: seq<Id>, n: nat, x: Id, y: Id)
    requires Ascending(all) && n <= |all| && x in all[..n] && y in all && y !in all[..n]
    ensures x < y
  {
    var i :| 0 <= i < n && all[..n][i] == x;
    var j :| 0 <= j < |all| && all[j] == y;
    assert forall k :: 0 <= k < n ==> all[k] in all[..n];
  }

  lemma PrefixIsWithin(all: seq<Id>, n: nat, x: Id)
    requires n <= |all| && x in all[..n]
    ensures x in all
  {
  }

  /** The `batch` smallest elements. */
  function FirstOf(s: set<Id>, batch: nat): (ids: seq<Id>)
    ensures |ids| == Min(|s|, batch) && Ascending(ids)
    ensures forall x :: x in ids ==> x in s
    ensures forall x, y :: x in ids && y in s && y !in ids ==> x < y
  {
    var all := Sorted(s);
    var n := Min(|s|, batch);
    assert forall x :: x in all[..n] ==> x in s by {
      forall x | x in all[..n]
        ensures x in s
      {
        PrefixIsWithin(all, n, x);
      }
    }
    assert forall x, y :: x in all[..n] && y in s && y !in all[..n] ==> x < y by {
      forall x, y | x in all[..n] && y in s && y !in all[..n]
        ensures x < y
      {
        PrefixIsBelow(all, n, x, y);
      }
    }
    all[..n]
  }

  function ToSet(ids: seq<Id>): set<Id> {
    set x | x in ids
  }

  lemma {:induction false} DistinctCount(ids: seq<Id>)
    requires Ascending(ids)
    ensures |ToSet(ids)| == |ids|
  {
    if |ids| > 0 {
      var front := ids[..|ids| - 1];
      DistinctCount(front);
      assert ToSet(ids) == ToSet(front) + {ids[|ids| - 1]};
      assert ids[|ids| - 1] !in front;
    }
  }

  // ---------------------------------------------------------------------------------------------
  // ORDER BY a column LIMIT a size
  // ---------------------------------------------------------------------------------------------

  /** The `size` first elements of `s` by `key`; equal keys come in any order. */
  ghost predicate IsFirstBy(key: map<Id, int>, s: set<Id>, size: nat, batch: seq<Id>)
    requires s <= key.Keys
  {
    && |batch| == Min(|s|, size)
    && (forall i :: 0 <= i < |batch| ==> batch[i] in s)
    && (forall i, j :: 0 <= i < j < |batch| ==> batch[i] != batch[j] && key[batch[i]] <= key[batch[j]])
    && (forall i, x :: 0 <= i < |batch| && x in s && x !in batch ==> key[batch[i]] <= key[x])
  }

  predicate Precedes(key: map<Id, int>, x: Id, y: Id)
    requires x in key && y in key
  {
    key[x] < key[y] || (key[x] == key[y] && x <= y)
  }

  lemma {:induction false} LeastByExists(key: map<Id, int>, s: set<Id>) returns (m: Id)
    requires s != {} && s <= key.Keys
    ensures m in s && forall x :: x in s ==> Precedes(key, m, x)
  {
    var some :| some in s;
    m := some;
    var rest := s - {some};
    if rest != {} {
      var n := LeastByExists(key, rest);
      m := if Precedes(key, some, n) then some else n;
    }
    forall x | x in s
      ensures Precedes(key, m, x)
    {
      assert x == some || x in rest;
    }
  }

  lemma SomeLeastBy(key: map<Id, int>, s: set<Id>)
    requires s != {} && s <= key.Keys
    ensures exists m :: m in s && forall x :: x in s ==> Precedes(key, m, x)
  {
    var m := LeastByExists(key, s);
  }

  function LeastBy(key: map<Id, int>, s: set<Id>): (m: Id)
    requires s != {} && s <= key.Keys
    ensures m in s && forall x :: x in s ==> Precedes(key, m, x)
  {
    SomeLeastBy(key, s);
    var m :| m in s && forall x :: x in s ==> Precedes(key, m, x);
    m
  }

  lemma LeastInFront(key: map<Id, int>, s: set<Id>, size: nat, m: Id, rest: seq<Id>)
    requires s <= key.Keys && size > 0
    requires m in s && forall x :: x in s ==> Precedes(key, m, x)
    requires IsFirstBy(key, s - {m}, size - 1, rest)
    ensures IsFirstBy(key, s, size, [m] + rest)
  {
    var batch := [m] + rest;
    forall i, x | 0 <= i < |batch| && x in s && x !in batch
      ensures key[batch[i]] <= key[x]
    {
      assert x !in rest && x in s - {m};
    }
  }

  function FirstBy(key: map<Id, int>, s: set<Id>, size: nat): (batch: seq<Id>)
    requires s <= key.Keys
    ensures IsFirstBy(key, s, size, batch)
    decreases size
  {
    if s == {} || size == 0 then [] else
      var m := LeastBy(key, s);
      var rest := FirstBy(key, s - {m}, size - 1);
      LeastInFront(key, s, size, m, rest);
      [m] + rest
  }

  /** As many different elements as the set has are all of them. */
  lemma {:induction false} DistinctIsWhole(ids: seq<Id>, s: set<Id>, x: Id)
    requires (forall i :: 0 <= i < |ids| ==> ids[i] in s) && (forall i, j :: 0 <= i < j < |ids| ==> ids[i] != ids[j])
    requires |ids| == |s| && x in s
    ensures x in ids
  {
    var last := |ids| - 1;
    if |ids| > 0 && ids[last] != x {
      DistinctIsWhole(ids[..last], s - {ids[last]}, x);
    }
  }

  /** Whatever is left out was left out for want of room, and does not come before anything taken. */
  lemma FirstByLeaves(key: map<Id, int>, s: set<Id>, size: nat, batch: seq<Id>, x: Id)
    requires s <= key.Keys && IsFirstBy(key, s, size, batch) && x in s && x !in batch
    ensures |batch| == size && forall i :: 0 <= i < |batch| ==> key[batch[i]] <= key[x]
  {
    if |batch| == |s| {
      DistinctIsWhole(batch, s, x);
    }
  }
}
