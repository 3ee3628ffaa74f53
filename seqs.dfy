/**
 * Sequence operations shared by the store, the history panel and the input handlers:
 * `Array.prototype.filter`, order preservation and string concatenation.
 */
module Seqs {

  /** `s.filter(p)`: the elements of `s` that satisfy `p`, in their original order. */
  function Filter<T>(p: T -> bool, s: seq<T>): (r: seq<T>)
    ensures |r| <= |s|
    decreases |s|
  {
    if |s| == 0 then []
    else if p(s[0]) then [s[0]] + Filter(p, s[1..])
    else Filter(p, s[1..])
  }

  /**
   * `r` can be obtained from `s` by deleting elements: every element of `r` occurs in `s`,
   * and in the same relative order.
   */
  predicate Subsequence<T(==)>(r: seq<T>, s: seq<T>)
    decreases |s|
  {
    if |r| == 0 then true
    else if |s| == 0 then false
    else if r[0] == s[0] then Subsequence(r[1..], s[1..])
    else Subsequence(r, s[1..])
  }

  /**
   * What `filter` promises: every element kept passes the test, every element that passes
   * is kept, as often as it occurs, and the kept elements appear in their original order.
   */
  lemma FilterSpec<T>(p: T -> bool, s: seq<T>)
    ensures forall k :: 0 <= k < |Filter(p, s)| ==> Filter(p, s)[k] in s && p(Filter(p, s)[k])
    ensures forall k :: 0 <= k < |s| && p(s[k]) ==> s[k] in Filter(p, s)
    ensures forall x :: multiset(Filter(p, s))[x] == if p(x) then multiset(s)[x] else 0
    ensures Subsequence(Filter(p, s), s)
  {
    FilterKeepsOrder(p, s);
    FilterCount(p, s);
  }

  /** The elements kept pass the test, those that pass are kept, and the order is the original one. */
  lemma {:induction false} FilterKeepsOrder<T>(p: T -> bool, s: seq<T>)
    ensures forall k :: 0 <= k < |Filter(p, s)| ==> Filter(p, s)[k] in s && p(Filter(p, s)[k])
    ensures forall k :: 0 <= k < |s| && p(s[k]) ==> s[k] in Filter(p, s)
    ensures Subsequence(Filter(p, s), s)
    decreases |s|
  {
    if |s| > 0 {
      FilterKeepsOrder(p, s[1..]);
      var r := Filter(p, s);
      var rest := Filter(p, s[1..]);
      if p(s[0]) {
        assert r == [s[0]] + rest;
        assert r[1..] == rest;
        forall k | 0 <= k < |s| && p(s[k]) ensures s[k] in r {
          if k > 0 { assert s[k] == s[1..][k - 1]; }
        }
      } else {
        forall k | 0 <= k < |s| && p(s[k]) ensures s[k] in r {
          assert s[k] == s[1..][k - 1];
        }
        SubsequenceSkip(r, s);
      }
    }
  }

  /** `filter` keeps each passing element exactly as often as it occurs, and no other element. */
  lemma {:induction false} FilterCount<T>(p: T -> bool, s: seq<T>)
    ensures forall x :: multiset(Filter(p, s))[x] == if p(x) then multiset(s)[x] else 0
    decreases |s|
  {
    if |s| > 0 {
      FilterCount(p, s[1..]);
      assert s == [s[0]] + s[1..];
      if p(s[0]) {
        assert Filter(p, s) == [s[0]] + Filter(p, s[1..]);
      }
    }
  }

  /** Dropping the head of `s` keeps a subsequence of the rest a subsequence of `s`. */
  lemma {:induction false} SubsequenceSkip<T>(r: seq<T>, s: seq<T>)
    requires |s| > 0 && Subsequence(r, s[1..])
    ensures Subsequence(r, s)
    decreases |s|, |r|
  {
    if |r| > 0 && r[0] == s[0] {
      // matching the head instead: the rest of r is a subsequence of s[1..] as well
      SubsequenceTail(r, s[1..]);
    }
  }

  /** Dropping the head of a non-empty subsequence keeps it a subsequence. */
  lemma {:induction false} SubsequenceTail<T>(r: seq<T>, s: seq<T>)
    requires |r| > 0 && Subsequence(r, s)
    ensures Subsequence(r[1..], s)
    decreases |s|, |r|
  {
    if |s| > 0 {
      if r[0] == s[0] {
        SubsequenceSkip(r[1..], s);
      } else {
        SubsequenceTail(r, s[1..]);
        SubsequenceSkip(r[1..], s);
      }
    }
  }

  /** Filtering a concatenation filters each part: filtering never reorders elements. */
  lemma {:induction false} FilterAppend<T>(p: T -> bool, a: seq<T>, b: seq<T>)
    ensures Filter(p, a + b) == Filter(p, a) + Filter(p, b)
    decreases |a|
  {
    if |a| == 0 {
      assert a + b == b;
    } else {
      assert (a + b)[1..] == a[1..] + b;
      FilterAppend(p, a[1..], b);
    }
  }

  /** A filter that every element passes keeps the whole sequence. */
  lemma {:induction false} FilterKeepsAll<T>(p: T -> bool, s: seq<T>)
    requires forall k :: 0 <= k < |s| ==> p(s[k])
    ensures Filter(p, s) == s
    decreases |s|
  {
    if |s| > 0 {
      FilterKeepsAll(p, s[1..]);
    }
  }

  /** A filter that no element passes keeps nothing. */
  lemma {:induction false} FilterDropsAll<T>(p: T -> bool, s: seq<T>)
    requires forall k :: 0 <= k < |s| ==> !p(s[k])
    ensures Filter(p, s) == []
    decreases |s|
  {
    if |s| > 0 {
      FilterDropsAll(p, s[1..]);
    }
  }

  /** A filter keeps the whole length exactly when every element passes. */
  lemma {:induction false} FilterFullLength<T>(p: T -> bool, s: seq<T>)
    ensures |Filter(p, s)| == |s| <==> forall k :: 0 <= k < |s| ==> p(s[k])
    decreases |s|
  {
    if |s| > 0 {
      FilterFullLength(p, s[1..]);
      assert forall k :: 1 <= k < |s| ==> s[k] == s[1..][k - 1];
    }
  }

  /**
   * A filter and its complement split a sequence: the multiset of elements kept plus the
   * multiset of elements dropped is the multiset of the input, so the lengths add up too.
   */
  lemma {:induction false} FilterComplement<T>(p: T -> bool, q: T -> bool, s: seq<T>)
    requires forall x :: q(x) == !p(x)
    ensures multiset(Filter(p, s)) + multiset(Filter(q, s)) == multiset(s)
    ensures |Filter(p, s)| + |Filter(q, s)| == |s|
    decreases |s|
  {
    if |s| > 0 {
      FilterComplement(p, q, s[1..]);
      assert s == [s[0]] + s[1..];
    }
  }

  /**
   * Three filters whose predicates hold for exactly one element each partition a sequence:
   * the three results together hold every element exactly as often as the input does.
   */
  lemma {:induction false} FilterPartition3<T>(p1: T -> bool, p2: T -> bool, p3: T -> bool, s: seq<T>)
    requires forall x :: (p1(x) || p2(x) || p3(x)) && !(p1(x) && p2(x)) && !(p1(x) && p3(x)) && !(p2(x) && p3(x))
    ensures multiset(Filter(p1, s)) + multiset(Filter(p2, s)) + multiset(Filter(p3, s)) == multiset(s)
    decreases |s|
  {
    if |s| > 0 {
      FilterPartition3(p1, p2, p3, s[1..]);
      assert s == [s[0]] + s[1..];
    }
  }

  /** The concatenation of a sequence of sequences (`parts.join('')` for strings). */
  function Flatten<T>(parts: seq<seq<T>>): (r: seq<T>)
    decreases |parts|
  {
    if |parts| == 0 then [] else parts[0] + Flatten(parts[1..])
  }

  /** Appending one more part appends it to the concatenation. */
  lemma {:induction false} FlattenSnoc<T>(parts: seq<seq<T>>, last: seq<T>)
    ensures Flatten(parts + [last]) == Flatten(parts) + last
    decreases |parts|
  {
    if |parts| == 0 {
      assert parts + [last] == [last];
    } else {
      assert (parts + [last])[1..] == parts[1..] + [last];
      FlattenSnoc(parts[1..], last);
    }
  }
}
