/** Sequence helpers the verification core is built from: the element-wise copy
    `mapList` and the in-place filter `retainAll` of Java's lists. */
module Lists {

  /** A new list whose element i is `f` applied to element i of `inputs`. */
  function MapList<T, R>(inputs: seq<T>, f: T -> R): (results: seq<R>)
    ensures |results| == |inputs|
    ensures forall i :: 0 <= i < |inputs| ==> results[i] == f(inputs[i])
  {
    if |inputs| == 0 then []
    else MapList(inputs[..|inputs| - 1], f) + [f(inputs[|inputs| - 1])]
  }

  /** No value occurs twice. */
  predicate NoDuplicates<T(==)>(s: seq<T>) {
    forall i, j :: 0 <= i < j < |s| ==> s[i] != s[j]
  }

  /** What `xs.retainAll(keep)` leaves in `xs`: the elements equal to some element
      of `keep`, in their original order, repeats included. */
  function RetainAll<T(==,!new)>(xs: seq<T>, keep: seq<T>): (kept: seq<T>)
    ensures |kept| <= |xs|
    ensures forall x :: multiset(kept)[x] == (if x in keep then multiset(xs)[x] else 0)
  {
    if |xs| == 0 then []
    else
      var init, last := xs[..|xs| - 1], xs[|xs| - 1];
      assert xs == init + [last];
      var rest := RetainAll(init, keep);
      if last in keep then rest + [last] else rest
  }

  /** A list has no duplicates exactly when every value occurs at most once in its multiset. */
  lemma {:induction false} NoDuplicatesIffCountsAtMostOne<T>(s: seq<T>)
    ensures NoDuplicates(s) <==> forall x :: multiset(s)[x] <= 1
  {
    if |s| > 0 {
      var init, last := s[..|s| - 1], s[|s| - 1];
      assert s == init + [last];
      NoDuplicatesIffCountsAtMostOne(init);
      if NoDuplicates(s) {
        assert NoDuplicates(init) by {
          forall i, j | 0 <= i < j < |init| ensures init[i] != init[j] {
            assert init[i] == s[i] && init[j] == s[j];
          }
        }
        assert last !in init;
      }
      if forall x :: multiset(s)[x] <= 1 {
        assert forall x :: multiset(init)[x] <= multiset(s)[x];
        assert last !in init by {
          assert multiset(s)[last] == multiset(init)[last] + 1;
        }
        forall i, j | 0 <= i < j < |s| ensures s[i] != s[j] {
          if j < |s| - 1 {
            assert s[i] == init[i] && s[j] == init[j];
          } else {
            assert s[i] in init;
          }
        }
      }
    }
  }

  /** A sub-multiset of the same size is the whole multiset. */
  lemma SubMultisetOfSameSize<T>(a: multiset<T>, b: multiset<T>)
    requires a <= b && |a| == |b|
    ensures a == b
  {
    var d := b - a;
    assert b == a + d;
    assert |d| == 0;
  }
}
