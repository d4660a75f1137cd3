/** Sequence facts shared by the other modules. */
module Seqs {

  datatype Option<+T> = None | Some(value: T)

  predicate NoDup<T(==)>(s: seq<T>) {
    forall i, j :: 0 <= i < j < |s| ==> s[i] != s[j]
  }

  function Elems<T(==)>(s: seq<T>): set<T> {
    set x | x in s
  }

  /** `s` without every element that occurs in `gone`, in the same order. */
  function Without<T(==, !new)>(s: seq<T>, gone: set<T>): (r: seq<T>)
    ensures forall x {:trigger x in r} :: x in r <==> x in s && x !in gone
    ensures NoDup(s) ==> NoDup(r)
    ensures |r| <= |s|
  {
    if s == [] then []
    else if s[0] in gone then Without(s[1..], gone)
    else
      var rest := Without(s[1..], gone);
      assert forall j :: 0 <= j < |rest| ==> rest[j] in rest;
      [s[0]] + rest
  }

  /** Removing the element at position `k` is removing the value found there. */
  lemma {:induction false} WithoutAt<T(!new)>(s: seq<T>, k: nat)
    requires NoDup(s) && k < |s|
    ensures Without(s, {s[k]}) == s[..k] + s[k + 1..]
  {
    var rest := s[1..];
    if k == 0 {
      WithoutNone(rest, {s[0]});
    } else {
      assert rest[k - 1] == s[k] && s[0] != s[k];
      WithoutAt(rest, k - 1);
      assert Without(s, {s[k]}) == [s[0]] + (rest[..k - 1] + rest[k..]);
    }
  }

  lemma {:induction false} WithoutNone<T(!new)>(s: seq<T>, gone: set<T>)
    requires forall x :: x in gone ==> x !in s
    ensures Without(s, gone) == s
  {
    if s != [] {
      assert s[0] in s;
      forall x | x in gone ensures x !in s[1..] { assert x !in s; }
      WithoutNone(s[1..], gone);
    }
  }

  /** Removing two batches one after the other is removing them together. */
  lemma {:induction false} WithoutTwice<T(!new)>(s: seq<T>, a: set<T>, b: set<T>)
    ensures Without(Without(s, a), b) == Without(s, a + b)
  {
    if s != [] {
      WithoutTwice(s[1..], a, b);
    }
  }

  /** Placing a stranger anywhere in a duplicate-free sequence leaves no duplicates. */
  lemma NoDupInserted<T>(s: seq<T>, k: nat, x: T)
    requires NoDup(s) && x !in s && k <= |s|
    ensures NoDup(s[..k] + [x] + s[k..])
  {
    var r := s[..k] + [x] + s[k..];
    forall i, j | 0 <= i < j < |r| ensures r[i] != r[j] {
      var a, b := if i < k then i else i - 1, if j < k then j else j - 1;
      assert i != k ==> r[i] == s[a];
      assert j != k ==> r[j] == s[b];
    }
  }

  lemma ElemsInserted<T>(s: seq<T>, k: nat, x: T)
    requires k <= |s|
    ensures Elems(s[..k] + [x] + s[k..]) == Elems(s) + {x}
  {
    assert s == s[..k] + s[k..];
  }

  /** Membership after an insertion at position `k`. */
  lemma Arrived<T>(was: seq<T>, now: seq<T>, k: nat, x: T)
    requires k <= |was| && now == was[..k] + [x] + was[k..]
    ensures x in now
    ensures forall y {:trigger y in now} :: y in now ==> y == x || y in was
    ensures forall y {:trigger y in was} :: y in was ==> y in now
  {
    assert now[k] == x;
    forall y | y in was ensures y in now {
      var i :| 0 <= i < |was| && was[i] == y;
      assert now[if i < k then i else i + 1] == y;
    }
  }

  /** Membership after a removal at position `k`. */
  lemma Departed<T>(was: seq<T>, now: seq<T>, k: nat)
    requires k < |was| && NoDup(was) && now == was[..k] + was[k + 1..]
    ensures was[k] !in now
    ensures forall y {:trigger y in now} :: y in now ==> y in was
    ensures forall y {:trigger y in was} :: y in was && y != was[k] ==> y in now
  {
    forall y | y in was && y != was[k] ensures y in now {
      var i :| 0 <= i < |was| && was[i] == y;
      assert now[if i < k then i else i - 1] == y;
    }
  }

  lemma NoDupConcat<T>(a: seq<T>, b: seq<T>)
    requires NoDup(a) && NoDup(b)
    requires forall i :: 0 <= i < |a| ==> a[i] !in b
    ensures NoDup(a + b)
  {
    var r := a + b;
    forall i, j | 0 <= i < j < |r| ensures r[i] != r[j] {
      if i < |a| <= j { assert r[j] in b; }
    }
  }

  lemma NoDupSplit<T>(all: seq<T>, a: seq<T>, b: seq<T>)
    requires NoDup(all) && all == a + b
    ensures NoDup(a) && NoDup(b)
    ensures forall i :: 0 <= i < |a| ==> a[i] !in b
  {
    assert forall i :: 0 <= i < |a| ==> a[i] == all[i];
    assert forall j :: 0 <= j < |b| ==> b[j] == all[|a| + j];
  }

  /** A duplicate-free sequence over a finite set is no longer than the set. */
  lemma {:induction false} NoDupBound<T>(s: seq<T>, all: set<T>)
    requires NoDup(s)
    requires forall x :: x in s ==> x in all
    ensures |s| <= |all|
  {
    if s != [] {
      forall x | x in s[1..] ensures x in all - {s[0]} {
        assert x in s;
        var i :| 0 <= i < |s[1..]| && s[1..][i] == x;
        assert s[i + 1] == x;
      }
      NoDupBound(s[1..], all - {s[0]});
    }
  }

  /** What holds at first and is kept by every step holds throughout. */
  lemma {:induction false} Throughout<T>(xs: seq<T>, holds: T -> bool, i: nat)
    requires i < |xs| && holds(xs[0])
    requires forall k :: 0 < k < |xs| && holds(xs[k - 1]) ==> holds(xs[k])
    ensures holds(xs[i])
  {
    if i > 0 { Throughout(xs, holds, i - 1); }
  }
}
