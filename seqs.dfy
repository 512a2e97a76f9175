/**
 * The array built-ins the storefront relies on (`find`, `filter`, `reduce`,
 * `forEach` with its index), written as functions over sequences, with the
 * facts about them that the cart, catalog and message proofs use.
 */
module Seqs {
  import opened Wrappers

  /** Index of the first element satisfying `p`, the element `Array.prototype.find` returns. */
  function FindIndex<T>(s: seq<T>, p: T -> bool): (r: Option<nat>)
    ensures r.Some? ==> r.value < |s| && p(s[r.value])
    ensures r.Some? ==> forall j :: 0 <= j < r.value ==> !p(s[j])
    ensures r.None? <==> forall j :: 0 <= j < |s| ==> !p(s[j])
  {
    if |s| == 0 then None
    else if p(s[0]) then Some(0)
    else match FindIndex(s[1..], p)
      case None => None
      case Some(i) => Some(i + 1)
  }

  /** The elements of `s` satisfying `p`, in their order in `s` (`Array.prototype.filter`). */
  function Filter<T(==)>(s: seq<T>, p: T -> bool): (r: seq<T>)
    ensures |r| <= |s|
    ensures forall j :: 0 <= j < |r| ==> r[j] in s && p(r[j])
    ensures forall j :: 0 <= j < |s| && p(s[j]) ==> s[j] in r
  {
    if |s| == 0 then [] else (if p(s[0]) then [s[0]] else []) + Filter(s[1..], p)
  }

  /** Filtering a concatenation filters each part and keeps them in order. */
  lemma {:induction false} FilterAppend<T>(a: seq<T>, b: seq<T>, p: T -> bool)
    ensures Filter(a + b, p) == Filter(a, p) + Filter(b, p)
  {
    if |a| == 0 {
      assert a + b == b;
    } else {
      assert (a + b)[1..] == a[1..] + b;
      FilterAppend(a[1..], b, p);
    }
  }

  /** Filtering keeps everything when every element satisfies `p`. */
  lemma {:induction false} FilterKeepsAll<T>(s: seq<T>, p: T -> bool)
    requires forall j :: 0 <= j < |s| ==> p(s[j])
    ensures Filter(s, p) == s
  {
    if |s| > 0 {
      FilterKeepsAll(s[1..], p);
    }
  }

  /** Filtering twice with the same predicate is filtering once. */
  lemma FilterIdempotent<T>(s: seq<T>, p: T -> bool)
    ensures Filter(Filter(s, p), p) == Filter(s, p)
  {
    var r := Filter(s, p);
    FilterKeepsAll(r, p);
  }

  /** Left fold from `acc`, as `Array.prototype.reduce` with an initial value computes it. */
  function Reduce<T>(s: seq<T>, f: T -> int, acc: int): int
  {
    if |s| == 0 then acc else Reduce(s[1..], f, acc + f(s[0]))
  }

  /** The plain sum of `f` over `s`: the reference meaning of a summing reduce. */
  function Sum<T>(s: seq<T>, f: T -> int): int
  {
    if |s| == 0 then 0 else f(s[0]) + Sum(s[1..], f)
  }

  lemma {:induction false} ReduceIsSum<T>(s: seq<T>, f: T -> int, acc: int)
    ensures Reduce(s, f, acc) == acc + Sum(s, f)
  {
    if |s| > 0 {
      ReduceIsSum(s[1..], f, acc + f(s[0]));
    }
  }

  lemma {:induction false} SumAppend<T>(a: seq<T>, b: seq<T>, f: T -> int)
    ensures Sum(a + b, f) == Sum(a, f) + Sum(b, f)
  {
    if |a| == 0 {
      assert a + b == b;
    } else {
      assert (a + b)[1..] == a[1..] + b;
      SumAppend(a[1..], b, f);
    }
  }

  /** Replacing one element changes the sum by the difference of the two values. */
  lemma SumUpdate<T>(s: seq<T>, i: nat, x: T, f: T -> int)
    requires i < |s|
    ensures Sum(s[i := x], f) == Sum(s, f) - f(s[i]) + f(x)
  {
    assert s == s[..i] + [s[i]] + s[i + 1..];
    assert s[i := x] == s[..i] + [x] + s[i + 1..];
    SumAppend(s[..i] + [s[i]], s[i + 1..], f);
    SumAppend(s[..i], [s[i]], f);
    SumAppend(s[..i] + [x], s[i + 1..], f);
    SumAppend(s[..i], [x], f);
  }

  /** A sum of values that are each at least 1 is at least the number of values. */
  lemma {:induction false} SumAtLeastLength<T>(s: seq<T>, f: T -> int)
    requires forall j :: 0 <= j < |s| ==> f(s[j]) >= 1
    ensures Sum(s, f) >= |s|
  {
    if |s| > 0 {
      SumAtLeastLength(s[1..], f);
    }
  }

  /** A sum of non-negative values is non-negative. */
  lemma {:induction false} SumNonNegative<T>(s: seq<T>, f: T -> int)
    requires forall j :: 0 <= j < |s| ==> f(s[j]) >= 0
    ensures Sum(s, f) >= 0
  {
    if |s| > 0 {
      SumNonNegative(s[1..], f);
    }
  }

  /** The strings of `ss` joined end to end. */
  function Concat(ss: seq<string>): string
  {
    if |ss| == 0 then "" else ss[0] + Concat(ss[1..])
  }

  lemma {:induction false} ConcatAppend(a: seq<string>, b: seq<string>)
    ensures Concat(a + b) == Concat(a) + Concat(b)
  {
    if |a| == 0 {
      assert a + b == b;
    } else {
      assert (a + b)[1..] == a[1..] + b;
      ConcatAppend(a[1..], b);
    }
  }

  /** Appending one string to the parts appends it to the joined text. */
  lemma ConcatSnoc(ss: seq<string>, x: string)
    ensures Concat(ss + [x]) == Concat(ss) + x
  {
    ConcatAppend(ss, [x]);
    assert Concat([x]) == x + Concat([]);
  }

  /**
   * The `k`-th part of a joined text `msg`, framed by `pre` and `post`,
   * starts where the parts before it end.
   */
  lemma ConcatPartAt(msg: string, pre: string, ss: seq<string>, post: string, k: nat)
    requires k < |ss|
    requires msg == pre + Concat(ss) + post
    ensures var start := |pre| + |Concat(ss[..k])|;
      start + |ss[k]| <= |msg| && msg[start..start + |ss[k]|] == ss[k]
      && |Concat(ss[..k + 1])| == |Concat(ss[..k])| + |ss[k]|
  {
    var part := ss[k];
    var before, after := Concat(ss[..k]), Concat(ss[k + 1..]);
    assert ss == ss[..k] + [part] + ss[k + 1..];
    assert ss[..k + 1] == ss[..k] + [part];
    ConcatAppend(ss[..k] + [part], ss[k + 1..]);
    ConcatSnoc(ss[..k], part);
    var left, right := pre + before, after + post;
    assert msg == left + part + right;
    assert (left + part + right)[|left|..|left| + |part|] == part;
  }

  /** Appending the pieces of the next part extends the joined text by that part. */
  lemma ConcatStep(m: string, pre: string, ss: seq<string>, i: nat, a: string, b: string, c: string, d: string)
    requires i < |ss| && m == pre + Concat(ss[..i]) && ss[i] == a + b + c + d
    ensures m + a + b + c + d == pre + Concat(ss[..i + 1])
  {
    assert ss[..i + 1] == ss[..i] + [ss[i]];
    ConcatSnoc(ss[..i], ss[i]);
    assert m + a + b + c + d == m + (a + b + c + d);
  }

  /**
   * `f` applied to each element of `s` together with a running number that
   * starts at `n` and goes up by one per element.
   */
  function Numbered<T>(s: seq<T>, n: nat, f: (nat, T) -> string): (r: seq<string>)
    ensures |r| == |s|
  {
    if |s| == 0 then [] else [f(n, s[0])] + Numbered(s[1..], n + 1, f)
  }

  /** The `k`-th result is `f` of the `k`-th element under the number `n + k`. */
  lemma {:induction false} NumberedAt<T>(s: seq<T>, n: nat, f: (nat, T) -> string, k: nat)
    requires k < |s|
    ensures Numbered(s, n, f)[k] == f(n + k, s[k])
  {
    if k > 0 {
      NumberedAt(s[1..], n + 1, f, k - 1);
    }
  }
}
