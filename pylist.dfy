/**
 * Python's indexing and slicing rules for lists, which the bots rely on when
 * the playback cursor is negative (an index of -1 is the last slot) or when a
 * slice starts before the beginning of the list.
 */
module PyList {

  function Min(a: int, b: int): int { if a <= b then a else b }

  function Max(a: int, b: int): int { if a <= b then b else a }

  /** `xs[i]` does not raise IndexError on a list of length `n`. */
  predicate PyIndexOk(n: nat, i: int) { 0 <= n + i && i < n }

  /** The position `xs[i]` reads, counting negative indices from the end. */
  function PyIndex(n: nat, i: int): (k: nat)
    requires PyIndexOk(n, i)
    ensures k < n
    ensures k == i || k == i + n
  {
    if i < 0 then n + i else i
  }

  /** Where a slice bound `i` lands in a list of length `n`, after Python clips it. */
  function SliceBound(n: nat, i: int): (k: nat)
    ensures k <= n
    ensures 0 <= i <= n ==> k == i
    ensures 0 <= n + i && i < 0 ==> k == n + i
    ensures n + i < 0 ==> k == 0
    ensures i > n ==> k == n
  {
    if i < 0 then Max(0, n + i) else Min(i, n)
  }

  /** Python's `xs[i:j]`. */
  function PySlice<T>(xs: seq<T>, i: int, j: int): (r: seq<T>)
    ensures |r| <= |xs|
  {
    var a, b := SliceBound(|xs|, i), SliceBound(|xs|, j);
    if a < b then xs[a..b] else []
  }

  /** Python's `xs[k:]`. */
  function PySliceFrom<T>(xs: seq<T>, k: int): (r: seq<T>)
    ensures |r| <= |xs|
  {
    xs[SliceBound(|xs|, k)..]
  }

  /** `len(xs[k:])` for a list of length `n`. */
  function PySliceLen(n: nat, k: int): (r: nat)
    ensures r <= n
    ensures k >= 0 ==> r == Max(0, n - k)
    ensures k < 0 ==> r == Min(n, -k)
  {
    n - SliceBound(n, k)
  }

  lemma PySliceLenIsLength<T>(xs: seq<T>, k: int)
    ensures |PySliceFrom(xs, k)| == PySliceLen(|xs|, k)
  {
  }

  /** Clipping bounds of the same sign is monotone and never stretches a window. */
  lemma SliceBoundMonotone(n: nat, i: int, j: int)
    requires i <= j
    requires (i < 0) == (j < 0)
    ensures SliceBound(n, i) <= SliceBound(n, j)
    ensures SliceBound(n, j) - SliceBound(n, i) <= j - i
  {
  }

  /** A slice `xs[i:j]` never holds more than `j - i` elements, whatever the signs. */
  lemma {:induction false} PySliceWidth<T>(xs: seq<T>, i: int, j: int)
    requires i <= j
    ensures |PySlice(xs, i, j)| <= j - i
  {
    if (i < 0) == (j < 0) {
      SliceBoundMonotone(|xs|, i, j);
    } else {
      assert SliceBound(|xs|, j) <= j && SliceBound(|xs|, i) >= |xs| + i;
    }
  }
}
