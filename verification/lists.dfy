/**
 * `Array.prototype.filter` on a list, and what it keeps: the wanted items, in
 * their order, each as often as it occurs. Shared by the portfolio filter and
 * the chat relay, which drops empty chunks the same way.
 */
module Lists {
  /** `items.filter(keep)`: the items satisfying `keep`, in their order. */
  function Keep<T(!new)>(items: seq<T>, keep: T -> bool): (r: seq<T>)
    ensures |r| <= |items|
    ensures forall i | 0 <= i < |r| :: keep(r[i])
    ensures forall x :: x in r <==> x in items && keep(x)
  {
    if items == [] then []
    else
      var init, last := items[..|items| - 1], items[|items| - 1];
      assert items == init + [last];
      Keep(init, keep) + (if keep(last) then [last] else [])
  }

  /** `a` is `b` with some entries left out, the rest in the same order. */
  ghost predicate SubsequenceOf<T>(a: seq<T>, b: seq<T>)
    decreases |b|
  {
    if a == [] then true
    else if b == [] then false
    else
      || (a[|a| - 1] == b[|b| - 1] && SubsequenceOf(a[..|a| - 1], b[..|b| - 1]))
      || SubsequenceOf(a, b[..|b| - 1])
  }

  /** Filtering keeps the original order: the result is a sub-list of the input. */
  lemma {:induction false} KeepIsSubsequence<T(!new)>(items: seq<T>, keep: T -> bool)
    ensures SubsequenceOf(Keep(items, keep), items)
  {
    if items != [] {
      var init, last := items[..|items| - 1], items[|items| - 1];
      KeepIsSubsequence(init, keep);
      var r := Keep(items, keep);
      if keep(last) {
        assert r[..|r| - 1] == Keep(init, keep);
      } else {
        assert r == Keep(init, keep);
      }
    }
  }

  /** Filtering keeps every wanted item as often as it occurs, and no other. */
  lemma {:induction false} KeepCounts<T(!new)>(items: seq<T>, keep: T -> bool, x: T)
    ensures multiset(Keep(items, keep))[x] == if keep(x) then multiset(items)[x] else 0
  {
    if items != [] {
      var init, last := items[..|items| - 1], items[|items| - 1];
      assert items == init + [last];
      KeepCounts(init, keep, x);
    }
  }

  lemma {:induction false} SubsequenceOfSelf<T>(s: seq<T>)
    ensures SubsequenceOf(s, s)
  {
    if s != [] {
      SubsequenceOfSelf(s[..|s| - 1]);
    }
  }

  /** `KeepCounts` for every value at once. */
  lemma KeepCountsAll<T(!new)>(items: seq<T>, keep: T -> bool)
    ensures forall x :: multiset(Keep(items, keep))[x] == if keep(x) then multiset(items)[x] else 0
  {
    forall x
      ensures multiset(Keep(items, keep))[x] == if keep(x) then multiset(items)[x] else 0
    {
      KeepCounts(items, keep, x);
    }
  }
}
