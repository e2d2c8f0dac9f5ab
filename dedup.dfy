/** First-occurrence de-duplication of a list, as done by `deduplicate`, which
    copies its argument into a JavaScript `Set` and reads it back: a value is
    kept the first time it is seen, later copies are dropped, and the kept
    values stay in the order of their first occurrence. */
module Dedup {

  /** No value occurs twice in `s`. */
  predicate NoDup<T(==)>(s: seq<T>) {
    forall i, j :: 0 <= i < j < |s| ==> s[i] != s[j]
  }

  /** The index of the first occurrence of `x` in `s`. */
  function IndexOf<T(==)>(s: seq<T>, x: T): (i: nat)
    requires x in s
    ensures i < |s| && s[i] == x && x !in s[..i]
  {
    if s[0] == x then 0 else 1 + IndexOf(s[1..], x)
  }

  /** `s` with every value after its first occurrence removed. Defined the way
      a `Set` is filled: element by element, a value already held is skipped
      and a new one is appended. */
  function Deduplicate<T(==)>(s: seq<T>): (r: seq<T>)
    ensures forall i :: 0 <= i < |r| ==> r[i] in s
    ensures forall i :: 0 <= i < |s| ==> s[i] in r
    ensures NoDup(r)
    ensures |r| <= |s|
  {
    if s == [] then []
    else
      var kept := Deduplicate(s[..|s| - 1]);
      var x := s[|s| - 1];
      if x in kept then kept else kept + [x]
  }

  /** Removing the last element of `a + b` with `b` non-empty leaves `a` and the
      rest of `b`. */
  lemma DropLastOfConcat<T>(a: seq<T>, b: seq<T>)
    requires b != []
    ensures (a + b)[..|a + b| - 1] == a + b[..|b| - 1]
    ensures (a + b)[|a + b| - 1] == b[|b| - 1]
  {
  }

  /** De-duplicating a longer list only appends to the result: the values kept
      from `a` come first, unchanged and in the same order. */
  lemma {:induction false} DeduplicateExtends<T>(a: seq<T>, b: seq<T>)
    ensures Deduplicate(a) <= Deduplicate(a + b)
  {
    if b == [] {
      assert a + b == a;
    } else {
      DropLastOfConcat(a, b);
      DeduplicateExtends(a, b[..|b| - 1]);
    }
  }

  /** Appending values that have all been seen already changes nothing. */
  lemma {:induction false} DeduplicateAbsorbs<T>(a: seq<T>, b: seq<T>)
    requires forall x :: x in b ==> x in a
    ensures Deduplicate(a + b) == Deduplicate(a)
  {
    if b == [] {
      assert a + b == a;
    } else {
      DropLastOfConcat(a, b);
      DeduplicateAbsorbs(a, b[..|b| - 1]);
    }
  }

  /** A list without duplicates is its own de-duplication. */
  lemma {:induction false} DeduplicateOfNoDup<T>(s: seq<T>)
    requires NoDup(s)
    ensures Deduplicate(s) == s
  {
    if s != [] {
      var init := s[..|s| - 1];
      assert NoDup(init);
      DeduplicateOfNoDup(init);
      assert s[|s| - 1] !in init by {
        forall i | 0 <= i < |init| ensures init[i] != s[|s| - 1] {
          assert init[i] == s[i];
        }
      }
      assert init + [s[|s| - 1]] == s;
    }
  }

  /** De-duplication is idempotent. */
  lemma DeduplicateIdempotent<T>(s: seq<T>)
    ensures Deduplicate(Deduplicate(s)) == Deduplicate(s)
  {
    DeduplicateOfNoDup(Deduplicate(s));
  }

  /** A first occurrence inside a prefix is the first occurrence in the whole list. */
  lemma IndexOfInPrefix<T>(s: seq<T>, n: nat, x: T)
    requires n <= |s| && x in s[..n]
    ensures IndexOf(s, x) == IndexOf(s[..n], x)
  {
    var k, k' := IndexOf(s, x), IndexOf(s[..n], x);
    assert s[..n][..k'] == s[..k'];
  }

  /** The kept values appear in the order of their first occurrence in the input. */
  lemma {:induction false} DeduplicateKeepsFirstOccurrenceOrder<T>(s: seq<T>)
    ensures forall i, j :: 0 <= i < j < |Deduplicate(s)| ==>
      IndexOf(s, Deduplicate(s)[i]) < IndexOf(s, Deduplicate(s)[j])
  {
    if s != [] {
      var n := |s| - 1;
      var init, x := s[..n], s[n];
      var kept := Deduplicate(init);
      DeduplicateKeepsFirstOccurrenceOrder(init);
      forall y | y in kept ensures IndexOf(s, y) == IndexOf(init, y) {
        IndexOfInPrefix(s, n, y);
      }
      if x !in kept {
        assert x !in s[..n];
        assert IndexOf(s, x) == n;
        assert Deduplicate(s) == kept + [x];
      }
    }
  }

  /** Without duplicates there are as many distinct values as elements. */
  lemma {:induction false} NoDupCardinality<T>(s: seq<T>)
    requires NoDup(s)
    ensures |set x | x in s| == |s|
  {
    if s != [] {
      var init := s[..|s| - 1];
      assert NoDup(init);
      NoDupCardinality(init);
      assert s[|s| - 1] !in init by {
        forall i | 0 <= i < |init| ensures init[i] != s[|s| - 1] {
          assert init[i] == s[i];
        }
      }
      assert (set x | x in s) == (set x | x in init) + {s[|s| - 1]} by {
        assert s == init + [s[|s| - 1]];
      }
    }
  }

  /** A duplicate-free list whose values all occur in another duplicate-free
      list is at most as long as it. */
  lemma NoDupSubsetLength<T>(a: seq<T>, b: seq<T>)
    requires NoDup(a) && NoDup(b)
    requires forall x :: x in a ==> x in b
    ensures |a| <= |b|
  {
    NoDupCardinality(a);
    NoDupCardinality(b);
    var sa, sb := set x | x in a, set x | x in b;
    assert sb == sa + (sb - sa);
  }
}
