/**
 * Offset pagination as every list endpoint of the platform does it:
 * `queryset[offset:offset + page_size]` with `offset = (page - 1) * page_size`,
 * and `pages = ceil(total / page_size) if total > 0 else 1`.
 */
module Paging {
  import opened Query

  function Min(a: int, b: int): int { if a <= b then a else b }
  function Max(a: int, b: int): int { if a >= b then a else b }

  /** Python's `s[offset:offset + size]` for a non-negative offset. */
  function Window<T>(s: seq<T>, offset: nat, size: nat): (r: seq<T>)
    ensures |r| == if offset >= |s| then 0 else Min(size, |s| - offset)
    ensures forall k :: 0 <= k < |r| ==> r[k] == s[offset + k]
  {
    if offset >= |s| then [] else s[offset..Min(offset + size, |s|)]
  }

  function Offset(page: nat, size: nat): nat
    requires page >= 1
  {
    (page - 1) * size
  }

  /** The items of page `page` (counted from 1). */
  function Page<T>(s: seq<T>, page: nat, size: nat): (r: seq<T>)
    requires page >= 1
    ensures |r| <= size
  {
    Window(s, Offset(page, size), size)
  }

  /** `ceil(total / size) if total > 0 else 1`. */
  function TotalPages(total: nat, size: nat): (n: nat)
    requires size >= 1
    ensures n >= 1
    ensures total > 0 ==> (n - 1) * size < total <= n * size
    ensures total == 0 ==> n == 1
  {
    if total == 0 then 1 else (total + size - 1) / size
  }

  /** "There is a next page" and "more items lie beyond this page" are the same thing. */
  lemma HasNextIffMoreItems(page: nat, size: nat, total: nat)
    requires page >= 1 && size >= 1
    ensures page < TotalPages(total, size) <==> page * size < total
  {
    var n := TotalPages(total, size);
    if total > 0 {
      if page < n {
        assert page * size <= (n - 1) * size by { MulMono(page, n - 1, size); }
      } else {
        assert n * size <= page * size by { MulMono(n, page, size); }
      }
    }
  }

  lemma MulMono(a: nat, b: nat, c: nat)
    requires a <= b
    ensures a * c <= b * c
  {
  }

  /** Item `i` of the list is item `i % size` of page `i / size + 1`. */
  lemma ItemOnItsPage<T>(s: seq<T>, size: nat, i: nat)
    requires size >= 1 && i < |s|
    ensures var p := i / size + 1; i % size < |Page(s, p, size)| && Page(s, p, size)[i % size] == s[i]
  {
    var p := i / size + 1;
    assert Offset(p, size) == (i / size) * size;
    assert Offset(p, size) + i % size == i;
  }

  /** Two different pages of a list without repeated items share no item. */
  lemma PagesDisjoint<T>(s: seq<T>, size: nat, p: nat, q: nat, x: T)
    requires size >= 1 && p >= 1 && q >= 1 && p != q
    requires forall i, j :: 0 <= i < j < |s| ==> s[i] != s[j]
    ensures !(x in Page(s, p, size) && x in Page(s, q, size))
  {
    var P, Q := Page(s, p, size), Page(s, q, size);
    if x in P {
      var a :| 0 <= a < |P| && P[a] == x;
      forall b | 0 <= b < |Q| ensures Q[b] != x {
        OffsetsApart(size, p, q, a, b);
        var i, j := Offset(p, size) + a, Offset(q, size) + b;
        if i < j { assert s[i] != s[j]; } else { assert s[j] != s[i]; }
      }
    }
  }

  /** Positions inside two different pages are different positions. */
  lemma OffsetsApart(size: nat, p: nat, q: nat, a: nat, b: nat)
    requires p >= 1 && q >= 1 && p != q && a < size && b < size
    ensures Offset(p, size) + a != Offset(q, size) + b
  {
    if p < q { MulMono(p, q - 1, size); } else { MulMono(q, p - 1, size); }
  }

  /** A page of an ordered list is ordered. */
  lemma PageSorted<T>(s: seq<T>, page: nat, size: nat, le: (T, T) -> bool)
    requires page >= 1 && SortedBy(s, le)
    ensures SortedBy(Page(s, page, size), le)
  {
    var r := Page(s, page, size);
    var off := Offset(page, size);
    forall i, j | 0 <= i < j < |r| ensures le(r[i], r[j]) {
      assert r[i] == s[off + i] && r[j] == s[off + j];
    }
  }

  /** On an ordered list, every item of an earlier page comes before every item of a later one. */
  lemma PagesOrdered<T>(s: seq<T>, size: nat, p: nat, q: nat, le: (T, T) -> bool, a: T, b: T)
    requires 1 <= p < q && SortedBy(s, le)
    requires a in Page(s, p, size) && b in Page(s, q, size)
    ensures le(a, b)
  {
    var P, Q := Page(s, p, size), Page(s, q, size);
    var i :| 0 <= i < |P| && P[i] == a;
    var j :| 0 <= j < |Q| && Q[j] == b;
    MulMono(p, q - 1, size);
    assert Offset(p, size) + i < Offset(q, size) + j;
    assert s[Offset(p, size) + i] == a && s[Offset(q, size) + j] == b;
  }

  /** The `pagination` block of a list response. */
  datatype PaginationInfo = PaginationInfo(page: nat, pageSize: nat, total: nat, totalPages: nat, hasNext: bool, hasPrev: bool)

  /**
   * `has_next = page < total_pages` and `has_prev = page > 1`: there is a
   * next page exactly when items lie beyond this one.
   */
  function Pagination(page: nat, pageSize: nat, total: nat): (r: PaginationInfo)
    requires page >= 1 && pageSize >= 1
    ensures r.page == page && r.pageSize == pageSize && r.total == total
    ensures r.totalPages == TotalPages(total, pageSize)
    ensures r.hasNext <==> page * pageSize < total
    ensures r.hasPrev <==> page > 1
  {
    HasNextIffMoreItems(page, pageSize, total);
    var n := TotalPages(total, pageSize);
    PaginationInfo(page, pageSize, total, n, page < n, page > 1)
  }
}
