/**
 * `pairs(l)` of test.py: every pair `(l[i], l[j])` with `i < j`, built by
 * two nested loops, so the pairs come in lexicographic order of `(i, j)`.
 */
module Pairs {

  /** The pairs the inner loop appends for row `i`: `(l[i], l[j])` for `i < j`. */
  function Row<T>(l: seq<T>, i: nat): (row: seq<(T, T)>)
    requires i < |l|
    ensures |row| == |l| - i - 1
  {
    seq(|l| - i - 1, k requires 0 <= k < |l| - i - 1 => (l[i], l[i + 1 + k]))
  }

  /** The pairs appended by the first `n` rounds of the outer loop. */
  function Rows<T>(l: seq<T>, n: nat): seq<(T, T)>
    requires n <= |l|
  {
    if n == 0 then [] else Rows(l, n - 1) + Row(l, n - 1)
  }

  /** The list `pairs(l)` returns. */
  function AllPairs<T>(l: seq<T>): seq<(T, T)>
  {
    Rows(l, |l|)
  }

  /** Where row `i` begins in the result, for a list of length `n`. */
  function RowStart(n: int, i: nat): int
  {
    if i == 0 then 0 else RowStart(n, i - 1) + (n - i)
  }

  /** The position of the pair `(l[i], l[j])` in the result. */
  function Index(n: int, i: nat, j: int): int
  {
    RowStart(n, i) + (j - i - 1)
  }

  lemma {:induction false} RowsLength<T>(l: seq<T>, n: nat)
    requires n <= |l|
    ensures |Rows(l, n)| == RowStart(|l|, n)
  {
    if n > 0 {
      RowsLength(l, n - 1);
    }
  }

  lemma {:induction false} RowStartClosed(n: int, i: nat)
    ensures 2 * RowStart(n, i) == i * (2 * n - i - 1)
  {
    if i > 0 {
      RowStartClosed(n, i - 1);
      assert (i - 1) * (2 * n - i) + 2 * (n - i) == i * (2 * n - i - 1);
    }
  }

  lemma {:induction false} RowStartMonotone(n: int, i: nat, i': nat)
    requires i <= i' <= n
    ensures RowStart(n, i) <= RowStart(n, i')
  {
    if i < i' {
      RowStartMonotone(n, i, i' - 1);
    }
  }

  lemma {:induction false} RowsPrefix<T>(l: seq<T>, n: nat, n': nat)
    requires n <= n' <= |l|
    ensures |Rows(l, n)| <= |Rows(l, n')|
    ensures Rows(l, n) == Rows(l, n')[..|Rows(l, n)|]
  {
    if n < n' {
      RowsPrefix(l, n, n' - 1);
      assert Rows(l, n') == Rows(l, n' - 1) + Row(l, n' - 1);
    }
  }

  /** `pairs` returns `len(l) * (len(l) - 1) / 2` pairs. */
  lemma PairsCount<T>(l: seq<T>)
    ensures |AllPairs(l)| == |l| * (|l| - 1) / 2
  {
    RowsLength(l, |l|);
    RowStartClosed(|l|, |l|);
  }

  /** The pair `(l[i], l[j])`, `i < j`, sits at position `Index(|l|, i, j)`. */
  lemma PairAt<T>(l: seq<T>, i: nat, j: nat)
    requires i < j < |l|
    ensures 0 <= Index(|l|, i, j) < |AllPairs(l)|
    ensures AllPairs(l)[Index(|l|, i, j)] == (l[i], l[j])
  {
    RowsLength(l, i);
    RowsPrefix(l, i + 1, |l|);
    assert Rows(l, i + 1) == Rows(l, i) + Row(l, i);
    assert Rows(l, i + 1)[Index(|l|, i, j)] == Row(l, i)[j - i - 1];
  }

  /** Every element of the result is some `(l[i], l[j])` with `i < j`. */
  lemma {:induction false} PairOf<T>(l: seq<T>, n: nat, k: nat) returns (i: nat, j: nat)
    requires n <= |l| && k < |Rows(l, n)|
    ensures i < j < |l| && i < n
    ensures Index(|l|, i, j) == k
    ensures Rows(l, n)[k] == (l[i], l[j])
  {
    RowsLength(l, n - 1);
    if k < |Rows(l, n - 1)| {
      i, j := PairOf(l, n - 1, k);
    } else {
      i := n - 1;
      j := i + 1 + (k - |Rows(l, n - 1)|);
    }
  }

  /**
   * Positions follow the lexicographic order of `(i, j)`, so the result is
   * sorted that way and holds each pair once.
   */
  lemma IndexOrdered(n: nat, i: nat, j: nat, i': nat, j': nat)
    requires i < j < n && i' < j' < n
    requires i < i' || (i == i' && j < j')
    ensures Index(n, i, j) < Index(n, i', j')
  {
    if i < i' {
      RowStartMonotone(n, i + 1, i');
    }
  }

  /** `pairs(l)` as the source writes it, appending inside two nested loops. */
  method Pairs<T>(l: seq<T>) returns (res: seq<(T, T)>)
    ensures res == AllPairs(l)
  {
    res := [];
    var ii := 0;
    while ii < |l|
      invariant 0 <= ii <= |l|
      invariant res == Rows(l, ii)
    {
      var jj := ii + 1;
      while jj < |l|
        invariant ii + 1 <= jj <= |l|
        invariant res == Rows(l, ii) + Row(l, ii)[..jj - ii - 1]
      {
        res := res + [(l[ii], l[jj])];
        jj := jj + 1;
      }
      ii := ii + 1;
    }
  }
}
