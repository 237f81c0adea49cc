/** String order, and sorting by a string key. */
module Sorting {

  /** Go's order on strings; on well-formed text, byte order and code point order agree. */
  predicate Le(a: string, b: string) {
    a == "" || (b != "" && (a[0] < b[0] || (a[0] == b[0] && Le(a[1..], b[1..]))))
  }

  predicate Lt(a: string, b: string) {
    Le(a, b) && a != b
  }

  lemma {:induction false} LeTotal(a: string, b: string)
    ensures Le(a, b) || Le(b, a)
    ensures Le(a, a)
    ensures Le(a, b) && Le(b, a) ==> a == b
  {
    if a != "" {
      LeTotal(a[1..], a[1..]);
      if b != "" && a[0] == b[0] {
        LeTotal(a[1..], b[1..]);
        assert a == [a[0]] + a[1..] && b == [b[0]] + b[1..];
      }
    }
  }

  lemma {:induction false} LeTransitive(a: string, b: string, c: string)
    requires Le(a, b) && Le(b, c)
    ensures Le(a, c)
  {
    if a != "" && a[0] == b[0] && b[0] == c[0] {
      LeTransitive(a[1..], b[1..], c[1..]);
    }
  }

  ghost predicate SortedBy<T>(s: seq<T>, key: T -> string) {
    forall i, j :: 0 <= i < j < |s| ==> Le(key(s[i]), key(s[j]))
  }

  function Insert<T>(s: seq<T>, x: T, key: T -> string): seq<T> {
    if s == [] then [x]
    else if Le(key(s[|s| - 1]), key(x)) then s + [x]
    else Insert(s[..|s| - 1], x, key) + [s[|s| - 1]]
  }

  lemma {:induction false} InsertAddsOne<T>(s: seq<T>, x: T, key: T -> string)
    ensures multiset(Insert(s, x, key)) == multiset(s) + multiset{x}
  {
    if s != [] {
      var before, last := s[..|s| - 1], s[|s| - 1];
      assert s == before + [last];
      if !Le(key(last), key(x)) {
        InsertAddsOne(before, x, key);
      }
    }
  }

  lemma SortedAppend<T>(s: seq<T>, x: T, key: T -> string)
    requires SortedBy(s, key) && forall i :: 0 <= i < |s| ==> Le(key(s[i]), key(x))
    ensures SortedBy(s + [x], key)
  {
    LeTotal(key(x), key(x));
  }

  lemma {:induction false} InsertKeepsSorted<T>(s: seq<T>, x: T, key: T -> string)
    requires SortedBy(s, key)
    ensures SortedBy(Insert(s, x, key), key)
  {
    if s != [] {
      var before, last := s[..|s| - 1], s[|s| - 1];
      if Le(key(last), key(x)) {
        forall i | 0 <= i < |s|
          ensures Le(key(s[i]), key(x))
        {
          LeTotal(key(last), key(last));
          LeTransitive(key(s[i]), key(last), key(x));
        }
        SortedAppend(s, x, key);
      } else {
        InsertKeepsSorted(before, x, key);
        InsertIsBelow(before, x, last, key);
        SortedAppend(Insert(before, x, key), last, key);
      }
    }
  }

  lemma {:induction false} InsertIsBelow<T>(s: seq<T>, x: T, bound: T, key: T -> string)
    requires forall i :: 0 <= i < |s| ==> Le(key(s[i]), key(bound))
    requires !Le(key(bound), key(x))
    ensures forall i :: 0 <= i < |Insert(s, x, key)| ==> Le(key(Insert(s, x, key)[i]), key(bound))
  {
    LeTotal(key(x), key(bound));
    if s != [] {
      InsertIsBelow(s[..|s| - 1], x, bound, key);
    }
  }

  /** Any correct sort: the result is a sorted permutation, and nothing more is relied on. */
  method Sort<T(==)>(s: seq<T>, key: T -> string) returns (r: seq<T>)
    ensures SortedBy(r, key) && multiset(r) == multiset(s)
  {
    r := [];
    for k := 0 to |s|
      invariant SortedBy(r, key) && multiset(r) == multiset(s[..k])
    {
      InsertKeepsSorted(r, s[k], key);
      InsertAddsOne(r, s[k], key);
      assert s[..k + 1] == s[..k] + [s[k]];
      r := Insert(r, s[k], key);
    }
    assert s[..|s|] == s;
  }

  ghost predicate Ascending(s: seq<string>) {
    forall i, j :: 0 <= i < j < |s| ==> Le(s[i], s[j])
  }

  /** A multiset of strings has one sorted arrangement. */
  lemma {:induction false} SortedUnique(a: seq<string>, b: seq<string>)
    requires Ascending(a) && Ascending(b) && multiset(a) == multiset(b)
    ensures a == b
  {
    assert |a| == |multiset(a)| == |multiset(b)| == |b|;
    if a != [] {
      SameLast(a, b);
      SameRest(a, b);
      SortedUnique(a[..|a| - 1], b[..|b| - 1]);
      WithoutLast(a);
      WithoutLast(b);
    }
  }

  lemma SameRest(a: seq<string>, b: seq<string>)
    requires a != [] && b != [] && multiset(a) == multiset(b) && a[|a| - 1] == b[|b| - 1]
    ensures multiset(a[..|a| - 1]) == multiset(b[..|b| - 1])
  {
    WithoutLast(a);
    WithoutLast(b);
  }

  lemma WithoutLast(s: seq<string>)
    requires s != []
    ensures s == s[..|s| - 1] + [s[|s| - 1]]
    ensures multiset(s[..|s| - 1]) == multiset(s) - multiset{s[|s| - 1]}
  {
    assert s == s[..|s| - 1] + [s[|s| - 1]];
  }

  lemma SameLast(a: seq<string>, b: seq<string>)
    requires Ascending(a) && Ascending(b) && multiset(a) == multiset(b) && a != [] && b != []
    ensures a[|a| - 1] == b[|b| - 1]
  {
    LastIsGreatest(a, b);
    LastIsGreatest(b, a);
    LeTotal(a[|a| - 1], b[|b| - 1]);
  }

  lemma LastIsGreatest(a: seq<string>, b: seq<string>)
    requires Ascending(b) && multiset(a) == multiset(b) && a != [] && b != []
    ensures Le(a[|a| - 1], b[|b| - 1])
  {
    var x := a[|a| - 1];
    assert x in multiset(a);
    assert x in b;
    var i :| 0 <= i < |b| && b[i] == x;
    LeTotal(x, x);
  }

  ghost predicate Increasing(s: seq<string>) {
    forall i, j :: 0 <= i < j < |s| ==> Lt(s[i], s[j])
  }

  /** A set of names has one strictly increasing arrangement. */
  lemma {:induction false} IncreasingUnique(a: seq<string>, b: seq<string>)
    requires Increasing(a) && Increasing(b)
    requires forall x :: x in a <==> x in b
    ensures a == b
  {
    assert a != [] ==> a[|a| - 1] in a;
    assert b != [] ==> b[|b| - 1] in b;
    if a != [] && b != [] {
      LastOfIncreasing(a, b);
      LastOfIncreasing(b, a);
      LeTotal(a[|a| - 1], b[|b| - 1]);
      var a', b' := a[..|a| - 1], b[..|b| - 1];
      forall x
        ensures x in a' <==> x in b'
      {
        MembersBeforeLast(a, x);
        MembersBeforeLast(b, x);
      }
      IncreasingUnique(a', b');
      WithoutLast(a);
      WithoutLast(b);
    }
  }

  lemma LastOfIncreasing(a: seq<string>, b: seq<string>)
    requires Increasing(b) && a != [] && b != [] && a[|a| - 1] in b
    ensures Le(a[|a| - 1], b[|b| - 1])
  {
    var i :| 0 <= i < |b| && b[i] == a[|a| - 1];
    LeTotal(b[i], b[i]);
  }

  lemma MembersBeforeLast(s: seq<string>, x: string)
    requires s != [] && Increasing(s)
    ensures x in s[..|s| - 1] <==> x in s && x != s[|s| - 1]
  {
    if x in s && x != s[|s| - 1] {
      var i :| 0 <= i < |s| && s[i] == x;
      assert s[..|s| - 1][i] == x;
    }
    if x in s[..|s| - 1] {
      var i :| 0 <= i < |s| - 1 && s[..|s| - 1][i] == x;
      assert Lt(s[i], s[|s| - 1]);
    }
  }

  /** The one strictly increasing arrangement of a set of names. */
  ghost function Arrange(names: set<string>): (r: seq<string>)
    ensures Increasing(r)
    ensures forall x :: x in r <==> x in names
    decreases |names|
  {
    if names == {} then []
    else
      var x :| x in names;
      var rest := Arrange(names - {x});
      InsertIncreasing(rest, x);
      Insert(rest, x, y => y)
  }

  lemma InsertIncreasing(s: seq<string>, x: string)
    requires Increasing(s) && x !in s
    ensures
      var r := Insert(s, x, y => y);
      Increasing(r) && forall z :: z in r <==> z in s || z == x
  {
    var r := Insert(s, x, y => y);
    InsertKeepsSorted(s, x, y => y);
    InsertAddsOne(s, x, y => y);
    assert multiset(s + [x]) == multiset(s) + multiset{x};
    PermutationHasNoRepeats(s + [x], r);
  }

  ghost predicate NoRepeats<T>(s: seq<T>) {
    forall i, j :: 0 <= i < j < |s| ==> s[i] != s[j]
  }

  lemma {:induction false} CountsOfNoRepeats<T>(s: seq<T>)
    requires NoRepeats(s)
    ensures forall z :: z in multiset(s) ==> multiset(s)[z] == 1
  {
    if s != [] {
      var before, last := s[..|s| - 1], s[|s| - 1];
      CountsOfNoRepeats(before);
      assert s == before + [last];
      assert last !in before;
    }
  }

  lemma Occurrences<T>(s: seq<T>, i: nat, j: nat)
    requires i < j < |s|
    ensures s[i] == s[j] ==> multiset(s)[s[i]] >= 2
  {
    assert s == s[..j] + s[j..];
    assert s[..j][i] == s[i] && s[j..][0] == s[j];
    assert s[i] in multiset(s[..j]) && s[j] in multiset(s[j..]);
  }

  lemma PermutationHasNoRepeats<T>(s: seq<T>, r: seq<T>)
    requires NoRepeats(s) && multiset(r) == multiset(s)
    ensures NoRepeats(r)
    ensures forall z :: z in r <==> z in s
  {
    CountsOfNoRepeats(s);
    assert forall z :: z in r <==> z in multiset(r);
    assert forall z :: z in s <==> z in multiset(s);
    forall i, j | 0 <= i < j < |r|
      ensures r[i] != r[j]
    {
      Occurrences(r, i, j);
    }
  }
}
