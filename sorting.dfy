/**
 * A stable sort, used where the source sorts a table: `sort_values` on the
 * reference table and `sort_index` on the financial table. `SortBy` is the
 * specification (insertion sort, element by element), `InsertionSort` the
 * loop that computes it.
 */
module Sorting {

  /** `le` ranks every pair of elements and is transitive. */
  ghost predicate TotalPreorder<T(!new)>(le: (T, T) -> bool) {
    && (forall a, b :: le(a, b) || le(b, a))
    && (forall a, b, c :: le(a, b) && le(b, c) ==> le(a, c))
  }

  predicate SortedBy<T>(s: seq<T>, le: (T, T) -> bool) {
    forall i, j :: 0 <= i < j < |s| ==> le(s[i], s[j])
  }

  /** Puts `x` just before the first element that `le` ranks strictly above it. */
  function Insert<T>(t: seq<T>, x: T, le: (T, T) -> bool): seq<T> {
    if t == [] then [x]
    else if le(t[0], x) then [t[0]] + Insert(t[1..], x, le)
    else [x] + t
  }

  /** Insertion sort: each element in turn is inserted after its equals. */
  function SortBy<T>(s: seq<T>, le: (T, T) -> bool): seq<T> {
    if s == [] then []
    else Insert(SortBy(s[..|s| - 1], le), s[|s| - 1], le)
  }

  lemma {:induction false} InsertPermutes<T>(t: seq<T>, x: T, le: (T, T) -> bool)
    ensures multiset(Insert(t, x, le)) == multiset(t) + multiset{x}
  {
    if t != [] && le(t[0], x) {
      InsertPermutes(t[1..], x, le);
      assert t == [t[0]] + t[1..];
    }
  }

  /** The specification sort only reorders its input. */
  lemma {:induction false} SortByPermutes<T>(s: seq<T>, le: (T, T) -> bool)
    ensures multiset(SortBy(s, le)) == multiset(s)
  {
    if s != [] {
      var init, x := s[..|s| - 1], s[|s| - 1];
      SortByPermutes(init, le);
      InsertPermutes(SortBy(init, le), x, le);
      assert s == init + [x];
      assert multiset(s) == multiset(init) + multiset{x};
    }
  }

  lemma {:induction false} InsertSorted<T(!new)>(t: seq<T>, x: T, le: (T, T) -> bool)
    requires TotalPreorder(le) && SortedBy(t, le)
    ensures SortedBy(Insert(t, x, le), le)
  {
    if t != [] && le(t[0], x) {
      InsertSorted(t[1..], x, le);
      InsertPermutes(t[1..], x, le);
      var r := Insert(t, x, le);
      forall j | 0 < j < |r| ensures le(r[0], r[j]) {
        assert r[j] in multiset(Insert(t[1..], x, le));
        assert r[j] in multiset(t[1..]) + multiset{x};
        if r[j] != x {
          assert r[j] in t[1..];
        }
      }
    }
  }

  /** The specification sort orders its result. */
  lemma {:induction false} SortBySorted<T(!new)>(s: seq<T>, le: (T, T) -> bool)
    requires TotalPreorder(le)
    ensures SortedBy(SortBy(s, le), le)
  {
    if s != [] {
      SortBySorted(s[..|s| - 1], le);
      InsertSorted(SortBy(s[..|s| - 1], le), s[|s| - 1], le);
    }
  }

  /** The elements of `s` that `le` ranks equal to `k`, in their order in `s`. */
  function Ties<T>(s: seq<T>, k: T, le: (T, T) -> bool): seq<T> {
    if s == [] then []
    else (if le(s[0], k) && le(k, s[0]) then [s[0]] else []) + Ties(s[1..], k, le)
  }

  lemma {:induction false} TiesAppend<T>(s: seq<T>, x: T, k: T, le: (T, T) -> bool)
    ensures Ties(s + [x], k, le) == Ties(s, k, le) + Ties([x], k, le)
  {
    if s != [] {
      assert (s + [x])[1..] == s[1..] + [x];
      TiesAppend(s[1..], x, k, le);
    }
  }

  lemma {:induction false} TiesNone<T>(s: seq<T>, k: T, le: (T, T) -> bool)
    requires forall e :: e in s ==> !(le(e, k) && le(k, e))
    ensures Ties(s, k, le) == []
  {
    if s != [] {
      TiesNone(s[1..], k, le);
    }
  }

  /** Inserting `x` before an element ranked strictly above it adds no tie of `x`'s class ahead of `t`. */
  lemma TiesAbove<T(!new)>(t: seq<T>, x: T, k: T, le: (T, T) -> bool)
    requires TotalPreorder(le) && SortedBy(t, le)
    requires t != [] && !le(t[0], x) && le(x, k) && le(k, x)
    ensures Ties(t, k, le) == []
  {
    forall e | e in t ensures !(le(e, k) && le(k, e)) {
      var i :| 0 <= i < |t| && t[i] == e;
      if i > 0 {
        assert le(t[0], t[i]);
      }
    }
    TiesNone(t, k, le);
  }

  lemma {:induction false} InsertTies<T(!new)>(t: seq<T>, x: T, k: T, le: (T, T) -> bool)
    requires TotalPreorder(le) && SortedBy(t, le)
    ensures Ties(Insert(t, x, le), k, le) == Ties(t, k, le) + Ties([x], k, le)
  {
    var tx := Ties([x], k, le);
    assert [x][1..] == [];
    assert tx == (if le(x, k) && le(k, x) then [x] else []) + Ties([], k, le);
    if t == [] {
    } else if le(t[0], x) {
      var rest := Insert(t[1..], x, le);
      var head := if le(t[0], k) && le(k, t[0]) then [t[0]] else [];
      InsertTies(t[1..], x, k, le);
      assert ([t[0]] + rest)[1..] == rest;
      assert Ties(Insert(t, x, le), k, le) == head + Ties(rest, k, le);
      assert Ties(t, k, le) == head + Ties(t[1..], k, le);
      assert head + (Ties(t[1..], k, le) + tx) == (head + Ties(t[1..], k, le)) + tx;
    } else {
      assert ([x] + t)[1..] == t;
      assert Ties(Insert(t, x, le), k, le) == tx + Ties(t, k, le);
      if le(x, k) && le(k, x) {
        TiesAbove(t, x, k, le);
      }
    }
  }

  /**
   * Stability: elements that `le` ranks equal keep their relative order, so
   * the sort is determined even among ties.
   */
  lemma {:induction false} SortByStable<T(!new)>(s: seq<T>, k: T, le: (T, T) -> bool)
    requires TotalPreorder(le)
    ensures Ties(SortBy(s, le), k, le) == Ties(s, k, le)
  {
    if s != [] {
      var init, last := s[..|s| - 1], s[|s| - 1];
      SortByStable(init, k, le);
      SortBySorted(init, le);
      InsertTies(SortBy(init, le), last, k, le);
      assert s == init + [last];
      TiesAppend(init, last, k, le);
    }
  }

  /** Where `Insert` puts `x`: after the first `j` elements, all ranked at most `x`. */
  lemma {:induction false} InsertAt<T>(t: seq<T>, x: T, le: (T, T) -> bool, j: nat)
    requires j <= |t|
    requires forall i :: 0 <= i < j ==> le(t[i], x)
    requires j < |t| ==> !le(t[j], x)
    ensures Insert(t, x, le) == t[..j] + [x] + t[j..]
  {
    if j > 0 {
      var u := t[1..];
      InsertAt(u, x, le, j - 1);
      calc {
        Insert(t, x, le);
        { assert le(t[0], x); }
        [t[0]] + Insert(u, x, le);
        [t[0]] + (u[..j - 1] + [x] + u[j - 1..]);
        { assert t[..j] == [t[0]] + u[..j - 1]; assert t[j..] == u[j - 1..]; }
        t[..j] + [x] + t[j..];
      }
    } else if t != [] {
      assert !le(t[0], x);
    }
  }

  /** One more element of the input is one more insertion. */
  lemma SortByStep<T>(s: seq<T>, i: nat, le: (T, T) -> bool)
    requires i < |s|
    ensures SortBy(s[..i + 1], le) == Insert(SortBy(s[..i], le), s[i], le)
  {
    assert s[..i + 1][..i] == s[..i];
  }

  /** The loop that computes `SortBy`: insert each element after its equals. */
  method InsertionSort<T>(s: seq<T>, le: (T, T) -> bool) returns (r: seq<T>)
    ensures r == SortBy(s, le)
  {
    r := [];
    var i := 0;
    while i < |s|
      invariant 0 <= i <= |s|
      invariant r == SortBy(s[..i], le)
    {
      var x := s[i];
      var j := 0;
      while j < |r| && le(r[j], x)
        invariant 0 <= j <= |r|
        invariant forall k :: 0 <= k < j ==> le(r[k], x)
      {
        j := j + 1;
      }
      InsertAt(r, x, le, j);
      SortByStep(s, i, le);
      r := r[..j] + [x] + r[j..];
      i := i + 1;
    }
    assert s[..|s|] == s;
  }
}
