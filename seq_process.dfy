/**
 * `process` of imperative-seq-code.py: the sum of `i + 1` over the even
 * elements `i` of a sequence of integers. Python's `%` floors and Dafny's is
 * Euclidean; for the divisor 2 both leave remainder 0 exactly on even
 * numbers, negative ones included.
 */
module SeqProcess {

  /** What one element adds to the sum: `i + 1` when `i % 2 == 0`, nothing otherwise. */
  function Contribution(i: int): int {
    if i % 2 == 0 then i + 1 else 0
  }

  /** `process(s)`. */
  function Process(s: seq<int>): int {
    if s == [] then 0 else Contribution(s[0]) + Process(s[1..])
  }

  /** The even elements of `s`, in order (the generator's `if`). */
  function Evens(s: seq<int>): (r: seq<int>)
    ensures forall x :: x in r <==> x in s && x % 2 == 0
    ensures forall x :: multiset(r)[x] == if x % 2 == 0 then multiset(s)[x] else 0
  {
    if s == [] then [] else
      var head := if s[0] % 2 == 0 then [s[0]] else [];
      assert s == [s[0]] + s[1..];
      assert multiset(s) == multiset{s[0]} + multiset(s[1..]);
      head + Evens(s[1..])
  }

  /** The filter keeps the order of the input: it distributes over concatenation. */
  lemma {:induction false} EvensAppend(a: seq<int>, b: seq<int>)
    ensures Evens(a + b) == Evens(a) + Evens(b)
  {
    if a == [] {
      assert a + b == b;
    } else {
      assert (a + b)[0] == a[0] && (a + b)[1..] == a[1..] + b;
      EvensAppend(a[1..], b);
      var head := if a[0] % 2 == 0 then [a[0]] else [];
      assert head + (Evens(a[1..]) + Evens(b)) == (head + Evens(a[1..])) + Evens(b);
    }
  }

  /** Each element plus one (the generator's `i + 1`). */
  function Incremented(s: seq<int>): (r: seq<int>)
    ensures |r| == |s| && forall k :: 0 <= k < |s| ==> r[k] == s[k] + 1
  {
    if s == [] then [] else [s[0] + 1] + Incremented(s[1..])
  }

  /** `sum`. */
  function Sum(s: seq<int>): int {
    if s == [] then 0 else s[0] + Sum(s[1..])
  }

  lemma {:induction false} SumAppend(a: seq<int>, b: seq<int>)
    ensures Sum(a + b) == Sum(a) + Sum(b)
  {
    if a != [] {
      assert (a + b)[0] == a[0] && (a + b)[1..] == a[1..] + b;
      SumAppend(a[1..], b);
    } else {
      assert a + b == b;
    }
  }

  lemma IncrementedAppend(a: seq<int>, b: seq<int>)
    ensures Incremented(a + b) == Incremented(a) + Incremented(b)
  {
    var l, r := Incremented(a + b), Incremented(a) + Incremented(b);
    assert forall k :: 0 <= k < |l| ==> l[k] == r[k];
  }

  /** `process` is the sum, over the filtered elements, of each plus one. */
  lemma {:induction false} ProcessIsFilteredSum(s: seq<int>)
    ensures Process(s) == Sum(Incremented(Evens(s)))
  {
    if s != [] {
      ProcessIsFilteredSum(s[1..]);
      var head := if s[0] % 2 == 0 then [s[0]] else [];
      IncrementedAppend(head, Evens(s[1..]));
      SumAppend(Incremented(head), Incremented(Evens(s[1..])));
    }
  }

  /** An empty input gives 0. */
  lemma ProcessEmpty()
    ensures Process([]) == 0
  {
  }

  /** `process` is additive over concatenation. */
  lemma {:induction false} ProcessAppend(a: seq<int>, b: seq<int>)
    ensures Process(a + b) == Process(a) + Process(b)
  {
    if a != [] {
      assert (a + b)[0] == a[0] && (a + b)[1..] == a[1..] + b;
      ProcessAppend(a[1..], b);
    } else {
      assert a + b == b;
    }
  }

  /** Odd elements contribute nothing: dropping them leaves the result unchanged. */
  lemma {:induction false} OddElementsContributeNothing(s: seq<int>)
    ensures Process(s) == Process(Evens(s))
  {
    if s != [] {
      OddElementsContributeNothing(s[1..]);
      var head := if s[0] % 2 == 0 then [s[0]] else [];
      ProcessAppend(head, Evens(s[1..]));
    }
  }

  /** `range(n)`. */
  function Range(n: nat): (r: seq<int>)
    ensures |r| == n && forall k :: 0 <= k < n ==> r[k] == k
  {
    if n == 0 then [] else Range(n - 1) + [n - 1]
  }

  /** The example: `process(range(10))` is 1 + 3 + 5 + 7 + 9 = 25. */
  lemma ProcessRangeTen()
    ensures Process(Range(10)) == 25
  {
    var r := Range(10);
    assert r == [0, 1, 2, 3, 4] + [5, 6, 7, 8, 9];
    ProcessAppend([0, 1, 2, 3, 4], [5, 6, 7, 8, 9]);
  }
}
