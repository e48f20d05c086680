/** The paging arithmetic of `leave_history` (leave_request_service/main.py). */
module Pagination {

  /** Python's `xs[lo:hi]` for non-negative bounds: both are clamped to the length. */
  function Slice<T>(xs: seq<T>, lo: nat, hi: nat): seq<T> {
    var h := if hi < |xs| then hi else |xs|;
    if lo <= h then xs[lo..h] else []
  }

  function TotalPages(total: nat, size: nat): nat
    requires size >= 1
  {
    if total > 0 then (total + size - 1) / size else 0
  }

  /** Where page number `page` starts. */
  function Start(page: nat, size: nat): nat
    requires page >= 1
  {
    (page - 1) * size
  }

  function Page<T>(xs: seq<T>, page: nat, size: nat): seq<T>
    requires page >= 1 && size >= 1
  {
    Slice(xs, Start(page, size), Start(page, size) + size)
  }

  lemma PageIsFromList<T>(xs: seq<T>, page: nat, size: nat)
    requires page >= 1 && size >= 1
    ensures forall x :: x in Page(xs, page, size) ==> x in xs
  {
  }

  /** Pages 1 to n, one after the other. */
  function FirstPages<T>(xs: seq<T>, n: nat, size: nat): seq<T>
    requires size >= 1
  {
    if n == 0 then [] else FirstPages(xs, n - 1, size) + Page(xs, n, size)
  }

  lemma NextStart(page: nat, size: nat)
    requires page >= 1
    ensures Start(page + 1, size) == Start(page, size) + size
  {
  }

  lemma {:induction false} FirstPagesArePrefix<T>(xs: seq<T>, n: nat, size: nat)
    requires size >= 1
    ensures FirstPages(xs, n, size) == Slice(xs, 0, Start(n + 1, size))
  {
    if n > 0 {
      FirstPagesArePrefix(xs, n - 1, size);
      NextStart(n, size);
      SlicesJoin(xs, Start(n, size), size);
    }
  }

  lemma SlicesJoin<T>(xs: seq<T>, lo: nat, size: nat)
    ensures Slice(xs, 0, lo) + Slice(xs, lo, lo + size) == Slice(xs, 0, lo + size)
  {
  }

  lemma TotalPagesBounds(total: nat, size: nat)
    requires size >= 1
    ensures total <= Start(TotalPages(total, size) + 1, size) < total + size
  {
    var q := (total + size - 1) / size;
    assert total + size - 1 == q * size + (total + size - 1) % size;
  }

  lemma StartMonotone(p: nat, q: nat, size: nat)
    requires 1 <= p < q
    ensures Start(p, size) + size <= Start(q, size)
  {
    assert Start(q, size) == (p - 1) * size + (q - p) * size;
    assert (q - p) * size == size + (q - p - 1) * size;
  }

  /** Reading every page in turn gives back the whole list: nothing lost or repeated. */
  lemma PagesPartition<T>(xs: seq<T>, size: nat)
    requires size >= 1
    ensures FirstPages(xs, TotalPages(|xs|, size), size) == xs
  {
    FirstPagesArePrefix(xs, TotalPages(|xs|, size), size);
    TotalPagesBounds(|xs|, size);
  }

  /** Every page but the last is full, the last is not empty, and those past it are. */
  lemma PageLengths<T>(xs: seq<T>, page: nat, size: nat)
    requires page >= 1 && size >= 1
    ensures page < TotalPages(|xs|, size) ==> |Page(xs, page, size)| == size
    ensures page == TotalPages(|xs|, size) ==> 1 <= |Page(xs, page, size)| <= size
    ensures page > TotalPages(|xs|, size) ==> Page(xs, page, size) == []
  {
    var last := TotalPages(|xs|, size);
    TotalPagesBounds(|xs|, size);
    if last >= 1 {
      NextStart(last, size);
      if page < last { StartMonotone(page, last, size); }
      if page > last { StartMonotone(last, page, size); }
    }
  }

  /** Item i of the list is shown on page i / size + 1, at place i % size, and on no other. */
  lemma ItemOnOnePage<T>(xs: seq<T>, i: nat, page: nat, size: nat)
    requires page >= 1 && size >= 1 && i < |xs|
    ensures Start(page, size) <= i < Start(page, size) + |Page(xs, page, size)| <==> page == i / size + 1
    ensures i % size < |Page(xs, i / size + 1, size)|
    ensures Page(xs, i / size + 1, size)[i % size] == xs[i]
  {
    var home := i / size + 1;
    assert i == Start(home, size) + i % size;
    if page < home { StartMonotone(page, home, size); }
    if page > home { StartMonotone(home, page, size); }
  }
}
