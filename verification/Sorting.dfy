// The library sort, as a function, with the two facts callers need: the result is ordered, and an ordered
// arrangement of distinct elements is unique (so the order of the input does not matter).

module Sorting {

  function Insert<T>(less: (T, T) -> bool, x: T, s: seq<T>): seq<T> {
    if s == [] || less(x, s[0]) then [x] + s else [s[0]] + Insert(less, x, s[1..])
  }

  function SortBy<T>(less: (T, T) -> bool, s: seq<T>): seq<T> {
    if s == [] then [] else Insert(less, s[0], SortBy(less, s[1..]))
  }

  ghost predicate StrictOrderOn<T(!new)>(less: (T, T) -> bool, s: seq<T>) {
    && (forall x, y | x in s && y in s :: less(x, y) ==> !less(y, x))
    && (forall x, y | x in s && y in s :: x == y || less(x, y) || less(y, x))
    && (forall x, y, z | x in s && y in s && z in s :: less(x, y) && less(y, z) ==> less(x, z))
  }

  ghost predicate Distinct<T>(s: seq<T>) {
    forall i, j :: 0 <= i < j < |s| ==> s[i] != s[j]
  }

  ghost predicate Ascending<T>(less: (T, T) -> bool, s: seq<T>) {
    forall i, j :: 0 <= i < j < |s| ==> less(s[i], s[j])
  }

  lemma {:induction false} InsertKeeps<T>(less: (T, T) -> bool, x: T, s: seq<T>)
    ensures multiset(Insert(less, x, s)) == multiset(s) + multiset{x}
    ensures |Insert(less, x, s)| == |s| + 1
    ensures forall y :: y in Insert(less, x, s) <==> y == x || y in s
  {
    if s != [] && !less(x, s[0]) {
      InsertKeeps(less, x, s[1..]);
      assert s == [s[0]] + s[1..];
    }
  }

  lemma {:induction false} InsertAscends<T(!new)>(less: (T, T) -> bool, x: T, s: seq<T>)
    requires StrictOrderOn(less, [x] + s) && Ascending(less, s) && x !in s
    ensures Ascending(less, Insert(less, x, s))
  {
    assert forall y <- s :: y in [x] + s;
    assert x in [x] + s;
    if s != [] {
      assert s[0] in s;
      if less(x, s[0]) {
        assert forall y <- s :: y == s[0] || less(s[0], y);
      } else {
        assert less(s[0], x);
        assert forall y <- [x] + s[1..] :: y in [x] + s;
        InsertAscends(less, x, s[1..]);
        InsertKeeps(less, x, s[1..]);
        var rest := Insert(less, x, s[1..]);
        assert forall y <- rest :: less(s[0], y);
        assert forall i :: 0 <= i < |rest| ==> rest[i] in rest;
      }
    }
  }

  lemma {:induction false} SortKeeps<T>(less: (T, T) -> bool, s: seq<T>)
    ensures multiset(SortBy(less, s)) == multiset(s)
    ensures |SortBy(less, s)| == |s|
    ensures forall y :: y in SortBy(less, s) <==> y in s
  {
    if s != [] {
      SortKeeps(less, s[1..]);
      InsertKeeps(less, s[0], SortBy(less, s[1..]));
      assert s == [s[0]] + s[1..];
    }
  }

  lemma {:induction false} SortAscends<T(!new)>(less: (T, T) -> bool, s: seq<T>)
    requires StrictOrderOn(less, s) && Distinct(s)
    ensures Ascending(less, SortBy(less, s))
  {
    if s != [] {
      assert forall y <- s[1..] :: y in s;
      SortAscends(less, s[1..]);
      SortKeeps(less, s[1..]);
      var rest := SortBy(less, s[1..]);
      assert forall y <- [s[0]] + rest :: y in s;
      InsertAscends(less, s[0], rest);
    }
  }

  lemma {:induction false} AscendingIsUnique<T(!new)>(less: (T, T) -> bool, a: seq<T>, b: seq<T>)
    requires StrictOrderOn(less, a) && Ascending(less, a) && Ascending(less, b)
    requires forall y :: y in a <==> y in b
    ensures a == b
    decreases |a|
  {
    assert b == [] || b[0] in a;
    if a == [] {
    } else {
      assert a[0] in b;
      assert a[0] == b[0];
      forall y ensures y in a[1..] <==> y in b[1..] {
        TailMembers(less, a, y);
        TailMembers(less, b, y);
      }
      AscendingIsUnique(less, a[1..], b[1..]);
      assert a == [a[0]] + a[1..] && b == [b[0]] + b[1..];
    }
  }

  lemma TailMembers<T(!new)>(less: (T, T) -> bool, a: seq<T>, y: T)
    requires a != [] && Ascending(less, a) && !less(a[0], a[0])
    ensures y in a[1..] <==> y in a && y != a[0]
  {
    if y in a && y != a[0] {
      var i :| 0 <= i < |a| && a[i] == y;
      assert a[1..][i - 1] == y;
    }
    if y in a[1..] {
      var i :| 0 <= i < |a[1..]| && a[1..][i] == y;
      assert less(a[0], a[i + 1]);
    }
  }

  /** Sorting forgets the input order. */
  lemma SortForgetsOrder<T(!new)>(less: (T, T) -> bool, a: seq<T>, b: seq<T>)
    requires StrictOrderOn(less, a) && Distinct(a) && Distinct(b) && (forall y :: y in a <==> y in b)
    ensures SortBy(less, a) == SortBy(less, b)
  {
    SortKeeps(less, a);
    SortKeeps(less, b);
    SortAscends(less, a);
    SortAscends(less, b);
    AscendingIsUnique(less, SortBy(less, a), SortBy(less, b));
  }

  // ---------------------------------------------------------------------------
  // Filtering and mapping, and how they commute with sorting
  // ---------------------------------------------------------------------------

  function Keep<T(!new)>(p: T -> bool, s: seq<T>): (kept: seq<T>)
    ensures |kept| <= |s|
  {
    if s == [] then []
    else
      var front, x := s[..|s| - 1], s[|s| - 1];
      assert s == front + [x];
      Keep(p, front) + if p(x) then [x] else []
  }

  lemma {:induction false} KeepMembers<T(!new)>(p: T -> bool, s: seq<T>)
    ensures forall x :: x in Keep(p, s) <==> x in s && p(x)
  {
    if s != [] {
      KeepMembers(p, s[..|s| - 1]);
      assert s == s[..|s| - 1] + [s[|s| - 1]];
    }
  }

  function Map<T, U>(f: T -> U, s: seq<T>): (mapped: seq<U>)
    ensures |mapped| == |s| && forall i :: 0 <= i < |s| ==> mapped[i] == f(s[i])
  {
    seq(|s|, i requires 0 <= i < |s| => f(s[i]))
  }

  lemma KeepStep<T(!new)>(p: T -> bool, s: seq<T>, i: nat)
    requires i < |s|
    ensures Keep(p, s[..i + 1]) == Keep(p, s[..i]) + if p(s[i]) then [s[i]] else []
  {
    assert s[..i + 1][..i] == s[..i];
  }

  lemma {:induction false} KeepAscends<T(!new)>(less: (T, T) -> bool, p: T -> bool, s: seq<T>)
    requires Ascending(less, s)
    ensures Ascending(less, Keep(p, s))
  {
    if s != [] {
      var front, x := s[..|s| - 1], s[|s| - 1];
      KeepAscends(less, p, front);
      KeepMembers(p, front);
      assert forall y <- front :: less(y, x);
      var kept := Keep(p, front);
      assert forall i :: 0 <= i < |kept| ==> kept[i] in front;
    }
  }

  lemma {:induction false} KeepCommutes<T(!new)>(p: T -> bool, f: T -> T, s: seq<T>)
    requires forall x <- s :: p(f(x)) == p(x)
    ensures Keep(p, Map(f, s)) == Map(f, Keep(p, s))
  {
    if s != [] {
      var front, x := s[..|s| - 1], s[|s| - 1];
      assert s == front + [x];
      KeepCommutes(p, f, front);
      MapSnoc(f, front, x);
      KeepSnoc(p, Map(f, front), f(x));
      MapSnoc(f, Keep(p, front), x);
    }
  }

  lemma {:induction false} InsertCommutes<T(!new)>(less: (T, T) -> bool, f: T -> T, x: T, s: seq<T>)
    requires forall y <- s :: less(f(x), f(y)) == less(x, y)
    ensures Insert(less, f(x), Map(f, s)) == Map(f, Insert(less, x, s))
  {
    if s != [] && !less(x, s[0]) {
      InsertCommutes(less, f, x, s[1..]);
      assert Map(f, s)[1..] == Map(f, s[1..]);
    }
  }

  lemma {:induction false} SortCommutes<T(!new)>(less: (T, T) -> bool, f: T -> T, s: seq<T>)
    requires forall x, y | x in s && y in s :: less(f(x), f(y)) == less(x, y)
    ensures SortBy(less, Map(f, s)) == Map(f, SortBy(less, s))
  {
    if s != [] {
      SortCommutes(less, f, s[1..]);
      SortKeeps(less, s[1..]);
      InsertCommutes(less, f, s[0], SortBy(less, s[1..]));
      assert Map(f, s)[1..] == Map(f, s[1..]);
    }
  }

  lemma {:induction false} KeepHead<T(!new)>(p: T -> bool, s: seq<T>)
    requires s != []
    ensures Keep(p, s) == (if p(s[0]) then [s[0]] else []) + Keep(p, s[1..])
  {
    if |s| > 1 {
      var front := s[..|s| - 1];
      KeepHead(p, front);
      assert s[1..][..|s| - 2] == front[1..];
    }
  }

  lemma KeepSnoc<T(!new)>(p: T -> bool, s: seq<T>, x: T)
    ensures Keep(p, s + [x]) == Keep(p, s) + if p(x) then [x] else []
  {
    assert (s + [x])[..|s|] == s;
  }

  lemma MapSnoc<T, U>(f: T -> U, s: seq<T>, x: T)
    ensures Map(f, s + [x]) == Map(f, s) + [f(x)]
  {
  }

  /** Filtering after a map agrees with filtering before it and pruning the rest afterwards. */
  lemma {:induction false} KeepRefines<T(!new)>(p: T -> bool, p': T -> bool, q: T -> bool, f: T -> T, s: seq<T>)
    requires forall x <- s :: p'(f(x)) <==> p(x) && q(f(x))
    ensures Keep(p', Map(f, s)) == Keep(q, Map(f, Keep(p, s)))
  {
    if s == [] {
      assert Map(f, s) == [] && Map(f, Keep(p, s)) == [];
    } else {
      var front, x := s[..|s| - 1], s[|s| - 1];
      assert s == front + [x];
      assert x in s && forall y <- front :: y in s;
      KeepRefines(p, p', q, f, front);
      MapSnoc(f, front, x);
      KeepSnoc(p', Map(f, front), f(x));
      KeepSnoc(p, front, x);
      if p(x) {
        MapSnoc(f, Keep(p, front), x);
        KeepSnoc(q, Map(f, Keep(p, front)), f(x));
      } else {
        assert Keep(p, s) == Keep(p, front);
      }
    }
  }
}
