/** Facts about sequences shared by the catalog and the game session. */
module Sequences {

  /** No element occurs twice. */
  predicate Distinct<T(==)>(s: seq<T>) {
    forall a, b :: 0 <= a < b < |s| ==> s[a] != s[b]
  }

  /** A sequence is duplicate-free exactly when every element has multiplicity at most one. */
  lemma {:induction false} DistinctMultiplicity<T>(s: seq<T>)
    ensures Distinct(s) <==> forall x :: multiset(s)[x] <= 1
  {
    if s == [] {
    } else {
      var t := s[1..];
      assert s == [s[0]] + t;
      DistinctMultiplicity(t);
      assert multiset(s) == multiset{s[0]} + multiset(t);
      if Distinct(s) {
        assert Distinct(t) by {
          forall a, b | 0 <= a < b < |t| ensures t[a] != t[b] {
            assert t[a] == s[a + 1] && t[b] == s[b + 1];
          }
        }
        assert s[0] !in t by {
          forall k | 0 <= k < |t| ensures t[k] != s[0] {
            assert t[k] == s[k + 1];
          }
        }
      } else {
        var a, b :| 0 <= a < b < |s| && s[a] == s[b];
        if a == 0 {
          assert s[b] == t[b - 1];
          assert multiset(t)[s[0]] >= 1;
          assert multiset(s)[s[0]] >= 2;
        } else {
          assert t[a - 1] == t[b - 1];
          assert !Distinct(t);
          var x :| multiset(t)[x] > 1;
          assert multiset(s)[x] > 1;
        }
      }
    }
  }

  /** Reordering a duplicate-free sequence keeps it duplicate-free. */
  lemma PermutationKeepsDistinct<T>(a: seq<T>, b: seq<T>)
    requires multiset(a) == multiset(b)
    requires Distinct(b)
    ensures Distinct(a)
  {
    DistinctMultiplicity(a);
    DistinctMultiplicity(b);
  }

  /** A prefix of a duplicate-free sequence is duplicate-free. */
  lemma PrefixKeepsDistinct<T>(s: seq<T>, n: nat)
    requires n <= |s|
    requires Distinct(s)
    ensures Distinct(s[..n])
  {
  }
}
