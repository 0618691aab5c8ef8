/**
 * Go's string order (`a < b` compares the UTF-8 bytes, which orders code points the same way)
 * and the two sorts the core uses: `sort.Strings` on tag lists and `sort.Slice` by a string key
 * on listing entries.
 */
module Sorting {

  /** `a <= b` in Go's lexicographic string order. */
  predicate Below(a: string, b: string) {
    if a == [] then true
    else if b == [] then false
    else if a[0] != b[0] then a[0] < b[0]
    else Below(a[1..], b[1..])
  }

  /** Any two strings are comparable. */
  lemma {:induction false} BelowTotal(a: string, b: string)
    ensures Below(a, b) || Below(b, a)
  {
    if a != [] && b != [] && a[0] == b[0] {
      BelowTotal(a[1..], b[1..]);
    }
  }

  /** The order is reflexive. */
  lemma {:induction false} BelowRefl(a: string)
    ensures Below(a, a)
  {
    if a != [] {
      BelowRefl(a[1..]);
    }
  }

  /** The order is transitive. */
  lemma {:induction false} BelowTrans(a: string, b: string, c: string)
    requires Below(a, b) && Below(b, c)
    ensures Below(a, c)
  {
    if a != [] && b != [] && c != [] && a[0] == b[0] && b[0] == c[0] {
      BelowTrans(a[1..], b[1..], c[1..]);
    }
  }

  /** The order is antisymmetric: strings below each other are equal. */
  lemma {:induction false} BelowAntisym(a: string, b: string)
    requires Below(a, b) && Below(b, a)
    ensures a == b
  {
    if a != [] && b != [] {
      BelowAntisym(a[1..], b[1..]);
      assert a == [a[0]] + a[1..];
      assert b == [b[0]] + b[1..];
    }
  }

  /** Ascending by `key`. */
  predicate SortedBy<T>(s: seq<T>, key: T -> string) {
    forall i, j :: 0 <= i < j < |s| ==> Below(key(s[i]), key(s[j]))
  }

  /** The identity key, for sorting plain strings. */
  function Id(s: string): string { s }

  /** No element occurs twice. */
  predicate Distinct<T(==)>(s: seq<T>) {
    forall i, j :: 0 <= i < j < |s| ==> s[i] != s[j]
  }

  /** Ascending and without duplicates: the shape of a sorted set of tags. */
  predicate StrictlySorted(s: seq<string>) {
    SortedBy(s, Id) && Distinct(s)
  }

  /** A sequence is distinct exactly when every element occurs in it at most once. */
  lemma {:induction false} DistinctCount<T>(s: seq<T>)
    ensures Distinct(s) <==> forall x :: multiset(s)[x] <= 1
  {
    if s != [] {
      DistinctCount(s[1..]);
      assert s == [s[0]] + s[1..];
      assert multiset(s) == multiset{s[0]} + multiset(s[1..]);
      if Distinct(s) {
        assert Distinct(s[1..]) by {
          forall i, j | 0 <= i < j < |s[1..]| ensures s[1..][i] != s[1..][j] {
            assert s[1..][i] == s[i + 1] && s[1..][j] == s[j + 1];
          }
        }
      } else {
        var i, j :| 0 <= i < j < |s| && s[i] == s[j];
        if i == 0 {
          assert s[j] == s[1..][j - 1];
          assert multiset(s[1..])[s[0]] >= 1;
          assert multiset(s)[s[0]] >= 2;
        } else {
          assert s[1..][i - 1] == s[1..][j - 1];
          assert !Distinct(s[1..]);
          var x :| multiset(s[1..])[x] > 1;
          assert multiset(s)[x] > 1;
        }
      }
    }
  }

  /** A permutation of a distinct sequence is distinct. */
  lemma DistinctPerm<T>(a: seq<T>, b: seq<T>)
    requires Distinct(a) && multiset(a) == multiset(b)
    ensures Distinct(b)
  {
    DistinctCount(a);
    DistinctCount(b);
  }

  /** Prepending an element not above any element keeps a sequence ascending. */
  lemma SortedCons<T>(x: T, s: seq<T>, key: T -> string)
    requires SortedBy(s, key)
    requires forall i :: 0 <= i < |s| ==> Below(key(x), key(s[i]))
    ensures SortedBy([x] + s, key)
  {
    forall i, j | 0 <= i < j < |s| + 1 ensures Below(key(([x] + s)[i]), key(([x] + s)[j])) {
      assert ([x] + s)[j] == s[j - 1];
      if i > 0 {
        assert ([x] + s)[i] == s[i - 1];
      }
    }
  }

  /** Inserts `x` into an ascending sequence, after the elements not above it. */
  function InsertBy<T>(x: T, s: seq<T>, key: T -> string): (r: seq<T>)
    requires SortedBy(s, key)
    ensures SortedBy(r, key)
    ensures multiset(r) == multiset(s) + multiset{x}
  {
    if s == [] then [x]
    else if Below(key(x), key(s[0])) then
      assert SortedBy([x] + s, key) by {
        forall i | 0 <= i < |s| ensures Below(key(x), key(s[i])) {
          if i > 0 { BelowTrans(key(x), key(s[0]), key(s[i])); }
        }
        SortedCons(x, s, key);
      }
      [x] + s
    else
      var t := InsertBy(x, s[1..], key);
      BelowTotal(key(x), key(s[0]));
      assert multiset(t) == multiset(s[1..]) + multiset{x};
      assert s == [s[0]] + s[1..];
      assert SortedBy([s[0]] + t, key) by {
        forall i | 0 <= i < |t| ensures Below(key(s[0]), key(t[i])) {
          assert t[i] in multiset(t);
          if t[i] != x {
            assert t[i] in multiset(s[1..]);
            var k :| 0 <= k < |s[1..]| && s[1..][k] == t[i];
            assert s[k + 1] == t[i];
          }
        }
        SortedCons(s[0], t, key);
      }
      [s[0]] + t
  }

  /**
   * Sorts `s` ascending by `key` by insertion: the result is ordered and a permutation of
   * the input. Go's `sort.Slice` is not stable; the order of equal keys is not specified.
   */
  method SortBy<T>(s: seq<T>, key: T -> string) returns (r: seq<T>)
    ensures SortedBy(r, key)
    ensures multiset(r) == multiset(s)
  {
    r := [];
    var i := 0;
    while i < |s|
      invariant 0 <= i <= |s|
      invariant SortedBy(r, key)
      invariant multiset(r) == multiset(s[..i])
    {
      r := InsertBy(s[i], r, key);
      assert s[..i + 1] == s[..i] + [s[i]];
      i := i + 1;
    }
    assert s[..|s|] == s;
  }

  /** `sort.Strings`. */
  method SortStrings(s: seq<string>) returns (r: seq<string>)
    ensures SortedBy(r, Id)
    ensures multiset(r) == multiset(s)
  {
    r := SortBy(s, Id);
  }

  /** The first element of an ascending sequence is below every element. */
  lemma SortedHeadBelow(s: seq<string>, x: string)
    requires SortedBy(s, Id)
    requires x in multiset(s)
    ensures Below(s[0], x)
  {
    var j :| 0 <= j < |s| && s[j] == x;
    if j == 0 {
      BelowRefl(x);
    } else {
      assert Below(Id(s[0]), Id(s[j]));
    }
  }

  /** The tail of an ascending sequence is ascending. */
  lemma SortedTail<T>(s: seq<T>, key: T -> string)
    requires s != [] && SortedBy(s, key)
    ensures SortedBy(s[1..], key)
  {
    forall i, j | 0 <= i < j < |s[1..]| ensures Below(key(s[1..][i]), key(s[1..][j])) {
      assert s[1..][i] == s[i + 1] && s[1..][j] == s[j + 1];
    }
  }

  /**
   * Sorting strings is deterministic: two ascending permutations of the same strings are
   * the same sequence, so `sort.Strings` has exactly one possible result.
   */
  lemma {:induction false} SortedUnique(a: seq<string>, b: seq<string>)
    requires SortedBy(a, Id) && SortedBy(b, Id)
    requires multiset(a) == multiset(b)
    ensures a == b
  {
    if a != [] {
      assert a[0] in multiset(b);
      assert b[0] in multiset(a);
      SortedHeadBelow(b, a[0]);
      SortedHeadBelow(a, b[0]);
      BelowAntisym(a[0], b[0]);
      assert a == [a[0]] + a[1..];
      assert b == [b[0]] + b[1..];
      assert multiset(a[1..]) == multiset(a) - multiset{a[0]};
      assert multiset(b[1..]) == multiset(b) - multiset{b[0]};
      SortedTail(a, Id);
      SortedTail(b, Id);
      SortedUnique(a[1..], b[1..]);
    }
  }
}
