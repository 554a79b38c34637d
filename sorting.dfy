/**
 * `Array.prototype.sort` with a consistent comparator: a stable sort, modelled as
 * insertion sort over a total preorder `le` (`le(a, b)` when the comparator gives
 * a result <= 0).
 */
module Sorting {

  ghost predicate TotalPreorder<T(!new)>(le: (T, T) -> bool) {
    && (forall a, b :: le(a, b) || le(b, a))
    && (forall a, b, c :: le(a, b) && le(b, c) ==> le(a, c))
  }

  ghost predicate SortedBy<T>(le: (T, T) -> bool, s: seq<T>) {
    forall i, j :: 0 <= i < j < |s| ==> le(s[i], s[j])
  }

  predicate Equivalent<T>(le: (T, T) -> bool, a: T, b: T) {
    le(a, b) && le(b, a)
  }

  /** The elements of `s` that compare equal to `p`, in their order in `s`. */
  function Peers<T>(s: seq<T>, le: (T, T) -> bool, p: T): seq<T> {
    if s == [] then []
    else (if Equivalent(le, s[0], p) then [s[0]] else []) + Peers(s[1..], le, p)
  }

  /** Puts `x` before the first element it is not greater than. */
  function Insert<T>(x: T, t: seq<T>, le: (T, T) -> bool): (r: seq<T>)
    ensures multiset(r) == multiset(t) + multiset{x}
  {
    if t == [] then [x]
    else if le(x, t[0]) then [x] + t
    else
      assert t == [t[0]] + t[1..];
      [t[0]] + Insert(x, t[1..], le)
  }

  /** The stable sort of `s`. */
  function Sort<T>(s: seq<T>, le: (T, T) -> bool): (r: seq<T>)
    ensures multiset(r) == multiset(s)
  {
    if s == [] then []
    else
      assert s == [s[0]] + s[1..];
      Insert(s[0], Sort(s[1..], le), le)
  }

  /** Sorting two elements keeps them in place when the first is ordered before the second, else swaps them. */
  lemma SortTwo<T>(x: T, y: T, le: (T, T) -> bool)
    ensures Sort([x, y], le) == if le(x, y) then [x, y] else [y, x]
  {
    var one: seq<T> := [y];
    assert one[0] == y && one[1..] == [];
    assert Sort(one, le) == Insert(y, [], le) == one;
    var two: seq<T> := [x, y];
    assert two[0] == x && two[1..] == one;
    assert Sort(two, le) == Insert(x, one, le);
  }

  lemma {:induction false} InsertSorted<T(!new)>(x: T, t: seq<T>, le: (T, T) -> bool)
    requires TotalPreorder(le) && SortedBy(le, t)
    ensures SortedBy(le, Insert(x, t, le))
  {
    if t != [] && !le(x, t[0]) {
      InsertSorted(x, t[1..], le);
      var r := Insert(x, t, le);
      forall j | 1 <= j < |r| ensures le(r[0], r[j]) {
        assert r[j] in multiset(Insert(x, t[1..], le));
        assert r[j] == x || r[j] in t[1..];
      }
    }
  }

  /** The sort orders its result. */
  lemma {:induction false} SortSorted<T(!new)>(s: seq<T>, le: (T, T) -> bool)
    requires TotalPreorder(le)
    ensures SortedBy(le, Sort(s, le))
  {
    if s != [] {
      SortSorted(s[1..], le);
      InsertSorted(s[0], Sort(s[1..], le), le);
    }
  }

  lemma PeersCons<T>(y: T, t: seq<T>, le: (T, T) -> bool, p: T)
    ensures Peers([y] + t, le, p) == (if Equivalent(le, y, p) then [y] else []) + Peers(t, le, p)
  {
    assert ([y] + t)[0] == y;
    assert ([y] + t)[1..] == t;
  }

  /** Two peers of `p` are ordered either way round. */
  lemma PeersOrdered<T(!new)>(x: T, y: T, le: (T, T) -> bool, p: T)
    requires TotalPreorder(le)
    ensures Equivalent(le, x, p) && Equivalent(le, y, p) ==> le(x, y)
  {
    if Equivalent(le, x, p) && Equivalent(le, y, p) {
      assert le(x, p) && le(p, y);
    }
  }

  lemma SwapEmpty<T>(a: seq<T>, b: seq<T>, s: seq<T>)
    requires a == [] || b == []
    ensures b + (a + s) == a + (b + s)
  {
    if a == [] {
      assert b + ([] + s) == b + s;
    } else {
      assert [] + (a + s) == a + s;
    }
  }

  lemma {:induction false} InsertPeers<T(!new)>(x: T, t: seq<T>, le: (T, T) -> bool, p: T)
    requires TotalPreorder(le) && SortedBy(le, t)
    ensures Peers(Insert(x, t, le), le, p) == (if Equivalent(le, x, p) then [x] else []) + Peers(t, le, p)
  {
    if t == [] {
      PeersCons(x, [], le, p);
    } else if le(x, t[0]) {
      PeersCons(x, t, le, p);
    } else {
      var t0, rest := t[0], t[1..];
      assert t == [t0] + rest;
      assert SortedBy(le, rest);
      var r := Insert(x, rest, le);
      InsertPeers(x, rest, le, p);
      PeersCons(t0, r, le, p);
      PeersCons(t0, rest, le, p);
      var ex: seq<T> := if Equivalent(le, x, p) then [x] else [];
      var e0: seq<T> := if Equivalent(le, t0, p) then [t0] else [];
      PeersOrdered(x, t0, le, p);
      SwapEmpty(ex, e0, Peers(rest, le, p));
      calc {
        Peers(Insert(x, t, le), le, p);
        Peers([t0] + r, le, p);
        e0 + Peers(r, le, p);
        e0 + (ex + Peers(rest, le, p));
        ex + (e0 + Peers(rest, le, p));
        ex + Peers(t, le, p);
      }
    }
  }

  /** The sort is stable: elements that compare equal keep their relative order. */
  lemma {:induction false} SortStable<T(!new)>(s: seq<T>, le: (T, T) -> bool, p: T)
    requires TotalPreorder(le)
    ensures Peers(Sort(s, le), le, p) == Peers(s, le, p)
  {
    if s != [] {
      SortSorted(s[1..], le);
      SortStable(s[1..], le, p);
      InsertPeers(s[0], Sort(s[1..], le), le, p);
    }
  }
}
