/** The permutations of a sequence in the order `itertools.permutations`
    yields them: positional lexicographic order, so the permutations that
    start with the element at position 0 come first, then those starting with
    the element at position 1, and so on, each group ordered the same way
    over the remaining elements. cards.py selects a creature's damage
    assignment order by an index into this list. */
module Orderings {

  function Fact(n: nat): (r: nat)
    ensures r >= 1
  {
    if n == 0 then 1 else n * Fact(n - 1)
  }

  /** A list index as Python reads it: a negative index counts from the end. */
  function PyIndex(i: int, n: nat): (k: nat)
    requires 0 <= n + i && i < n
    ensures k < n
    ensures i >= 0 ==> k == i
    ensures i < 0 ==> k == n + i
  {
    if i < 0 then n + i else i
  }

  /** The sequence without the element at position i. */
  function RemoveAt<T>(s: seq<T>, i: nat): (r: seq<T>)
    requires i < |s|
    ensures |r| == |s| - 1
    ensures forall j :: 0 <= j < i ==> r[j] == s[j]
    ensures forall j :: i <= j < |r| ==> r[j] == s[j + 1]
  {
    s[..i] + s[i + 1..]
  }

  /** Every permutation in `ps`, with `x` put in front. */
  function Prefixed<T>(x: T, ps: seq<seq<T>>): (r: seq<seq<T>>)
    ensures |r| == |ps|
    ensures forall j :: 0 <= j < |ps| ==> r[j] == [x] + ps[j]
  {
    seq(|ps|, j requires 0 <= j < |ps| => [x] + ps[j])
  }

  /** All permutations of `s`, in `itertools.permutations` order. */
  function Permutations<T>(s: seq<T>): seq<seq<T>>
    decreases |s|, 1
  {
    if |s| == 0 then [[]] else PermsFrom(s, 0)
  }

  /** The permutations of `s` whose first element is taken from position i
      or later, in order. */
  function PermsFrom<T>(s: seq<T>, i: nat): seq<seq<T>>
    requires i <= |s|
    decreases |s|, 0, |s| - i
  {
    if i == |s| then []
    else Prefixed(s[i], Permutations(RemoveAt(s, i))) + PermsFrom(s, i + 1)
  }

  ghost predicate Distinct<T>(s: seq<T>)
  {
    forall a, b :: 0 <= a < b < |s| ==> s[a] != s[b]
  }

  /** There are n! permutations of n elements. */
  lemma {:induction false} PermutationsCount<T>(s: seq<T>)
    ensures |Permutations(s)| == Fact(|s|)
    decreases |s|, 1
  {
    if |s| > 0 {
      PermsFromCount(s, 0);
    }
  }

  lemma {:induction false} PermsFromCount<T>(s: seq<T>, i: nat)
    requires 0 < |s| && i <= |s|
    ensures |PermsFrom(s, i)| == (|s| - i) * Fact(|s| - 1)
    decreases |s|, 0, |s| - i
  {
    if i < |s| {
      PermutationsCount(RemoveAt(s, i));
      PermsFromCount(s, i + 1);
      var f := Fact(|s| - 1);
      assert (|s| - i) * f == f + (|s| - i - 1) * f;
    }
  }

  /** Removing one position takes exactly that element out of the multiset. */
  lemma RemoveAtMultiset<T>(s: seq<T>, i: nat)
    requires i < |s|
    ensures multiset(s) == multiset(RemoveAt(s, i)) + multiset{s[i]}
  {
    assert s == s[..i] + [s[i]] + s[i + 1..];
  }

  /** Every listed permutation rearranges exactly the elements of `s`. */
  lemma {:induction false} PermutationsArePermutations<T>(s: seq<T>, p: seq<T>)
    requires p in Permutations(s)
    ensures multiset(p) == multiset(s)
    decreases |s|, 1
  {
    if |s| > 0 {
      PermsFromArePermutations(s, 0, p);
    }
  }

  lemma {:induction false} PermsFromArePermutations<T>(s: seq<T>, i: nat, p: seq<T>)
    requires i <= |s| && p in PermsFrom(s, i)
    ensures multiset(p) == multiset(s)
    ensures |p| > 0 && p[0] in s[i..]
    decreases |s|, 0, |s| - i
  {
    var block := Prefixed(s[i], Permutations(RemoveAt(s, i)));
    if p in block {
      var j :| 0 <= j < |block| && block[j] == p;
      var q := Permutations(RemoveAt(s, i))[j];
      assert q in Permutations(RemoveAt(s, i));
      PermutationsArePermutations(RemoveAt(s, i), q);
      RemoveAtMultiset(s, i);
      assert p == [s[i]] + q;
      assert s[i..][0] == s[i];
    } else {
      PermsFromArePermutations(s, i + 1, p);
      assert s[i + 1..] == s[i..][1..];
    }
  }

  /** A permutation in the block of position k is listed in every
      `PermsFrom(s, i)` with i <= k. */
  lemma {:induction false} PermsFromContains<T>(s: seq<T>, i: nat, k: nat, p: seq<T>)
    requires i <= k < |s|
    requires p in Prefixed(s[k], Permutations(RemoveAt(s, k)))
    ensures p in PermsFrom(s, i)
    decreases k - i
  {
    if i < k {
      PermsFromContains(s, i + 1, k, p);
    }
  }

  /** Every rearrangement of `s` is listed: the index selects among all of
      them. */
  lemma {:induction false} PermutationsComplete<T>(s: seq<T>, t: seq<T>)
    requires multiset(t) == multiset(s)
    ensures t in Permutations(s)
    decreases |s|
  {
    if |s| == 0 {
      assert |t| == 0;
    } else {
      assert |t| == |s| by {
        assert |multiset(t)| == |multiset(s)|;
      }
      assert t[0] in multiset(s);
      var k :| 0 <= k < |s| && s[k] == t[0];
      RemoveAtMultiset(s, k);
      assert t == [t[0]] + t[1..];
      assert multiset(t) == multiset{t[0]} + multiset(t[1..]);
      assert multiset(t[1..]) == multiset(t) - multiset{t[0]};
      assert multiset(RemoveAt(s, k)) == multiset(s) - multiset{s[k]};
      PermutationsComplete(RemoveAt(s, k), t[1..]);
      var ps := Permutations(RemoveAt(s, k));
      var j :| 0 <= j < |ps| && ps[j] == t[1..];
      assert Prefixed(s[k], ps)[j] == t;
      PermsFromContains(s, 0, k, t);
    }
  }

  /** Distinct elements give distinct listed permutations, so the n! indices
      select n! different orders. */
  lemma {:induction false} PermutationsDistinct<T>(s: seq<T>)
    requires Distinct(s)
    ensures Distinct(Permutations(s))
    decreases |s|, 1
  {
    if |s| > 0 {
      PermsFromDistinct(s, 0);
    }
  }

  lemma {:induction false} PermsFromDistinct<T>(s: seq<T>, i: nat)
    requires Distinct(s) && i <= |s|
    ensures Distinct(PermsFrom(s, i))
    decreases |s|, 0, |s| - i
  {
    if i < |s| {
      var rest := RemoveAt(s, i);
      assert Distinct(rest) by {
        forall a, b | 0 <= a < b < |rest| ensures rest[a] != rest[b] {
          var a' := if a < i then a else a + 1;
          var b' := if b < i then b else b + 1;
          assert rest[a] == s[a'] && rest[b] == s[b'] && a' < b';
        }
      }
      PermutationsDistinct(rest);
      PermsFromDistinct(s, i + 1);
      var block := Prefixed(s[i], Permutations(rest));
      var tail := PermsFrom(s, i + 1);
      assert Distinct(block) by {
        forall a, b | 0 <= a < b < |block| ensures block[a] != block[b] {
          assert block[a][1..] == Permutations(rest)[a];
          assert block[b][1..] == Permutations(rest)[b];
        }
      }
      forall a, b | 0 <= a < |block| && 0 <= b < |tail| ensures block[a] != tail[b] {
        PermsFromArePermutations(s, i + 1, tail[b]);
        assert block[a][0] == s[i];
        assert s[i] !in s[i + 1..];
      }
      ConcatDistinct(block, tail);
    }
  }

  lemma ConcatDistinct<T>(x: seq<T>, y: seq<T>)
    requires Distinct(x) && Distinct(y)
    requires forall a, b :: 0 <= a < |x| && 0 <= b < |y| ==> x[a] != y[b]
    ensures Distinct(x + y)
  {
  }
}
