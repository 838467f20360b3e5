/** Sequence and set facts: distinctness, cardinality and the pigeonhole principle. */
module Collections {

  predicate Distinct<T(==)>(s: seq<T>) {
    forall a, b :: 0 <= a < b < |s| ==> s[a] != s[b]
  }

  /** The elements of a sequence, as a set. */
  function Elements<T>(s: seq<T>): set<T> {
    set i | 0 <= i < |s| :: s[i]
  }

  lemma SubsetCard<T>(a: set<T>, b: set<T>)
    requires a <= b
    ensures |a| <= |b|
  {
    assert b == a + (b - a);
  }

  /** A sequence has at most as many different elements as it has positions. */
  lemma {:induction false} ElementsBound<T>(s: seq<T>)
    ensures |Elements(s)| <= |s|
  {
    if s != [] {
      var t := s[..|s| - 1];
      ElementsBound(t);
      assert Elements(s) == Elements(t) + {s[|s| - 1]} by {
        forall x | x in Elements(s) ensures x in Elements(t) + {s[|s| - 1]} {
          var i :| 0 <= i < |s| && s[i] == x;
          if i < |s| - 1 { assert t[i] == x; }
        }
        forall x | x in Elements(t) ensures x in Elements(s) {
          var i :| 0 <= i < |t| && t[i] == x;
          assert s[i] == x;
        }
      }
    }
  }

  /** {0, 1, ..., n - 1}. */
  function Range(n: nat): set<int>
  {
    if n == 0 then {} else Range(n - 1) + {n - 1}
  }

  lemma {:induction false} RangeMembers(n: nat)
    ensures forall k :: k in Range(n) <==> 0 <= k < n
  {
    if n > 0 {
      RangeMembers(n - 1);
    }
  }

  lemma {:induction false} RangeCard(n: nat)
    ensures |Range(n)| == n
  {
    if n > 0 {
      RangeCard(n - 1);
      RangeMembers(n - 1);
      assert n - 1 !in Range(n - 1);
    }
  }

  /** Fewer than n entries cannot cover 0..n-1. */
  lemma Pigeonhole(s: seq<int>, n: nat)
    requires |s| < n
    ensures exists k :: 0 <= k < n && k !in s
  {
    if forall k :: 0 <= k < n ==> k in s {
      RangeMembers(n);
      assert Range(n) <= Elements(s) by {
        forall k | k in Range(n) ensures k in Elements(s) {
          assert k in s;
          var i :| 0 <= i < |s| && s[i] == k;
        }
      }
      SubsetCard(Range(n), Elements(s));
      RangeCard(n);
      ElementsBound(s);
    }
  }
}
