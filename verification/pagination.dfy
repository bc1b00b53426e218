/** The generic offset/limit pager and its helpers. Query parameters
    arrive already converted to integers; an absent one is `None`. */
module Pagination {
  import opened Common

  const DefaultPageSize := 10

  /** `paginate_queryset`: `queryset[offset:offset + limit]`, where an
      absent limit is the page size and an absent offset is 0. For
      non-negative values the page is the order-preserving window of the
      input starting at the offset, of length
      `min(limit, max(0, len - offset))`. */
  function PaginateQueryset<T>(queryset: seq<T>, limit: Option<int>, offset: Option<int>, pageSize: int): (r: seq<T>)
    ensures var l := if limit.Some? then limit.value else pageSize;
      var o := if offset.Some? then offset.value else 0;
      0 <= l && 0 <= o ==>
        |r| == Min(l, Max(0, |queryset| - o)) &&
        (forall k :: 0 <= k < |r| ==> r[k] == queryset[o + k])
  {
    var l := if limit.Some? then limit.value else pageSize;
    var o := if offset.Some? then offset.value else 0;
    if 0 <= l && 0 <= o then PySliceWindow(queryset, o, o + l); PySlice(queryset, o, o + l)
    else PySlice(queryset, o, o + l)
  }

  /** Without parameters the first `pageSize` items are answered (all of
      them when there are fewer); with the default page size, the first
      ten. */
  lemma DefaultsGiveFirstPage<T>(queryset: seq<T>, pageSize: nat)
    ensures PaginateQueryset(queryset, None, None, pageSize) == queryset[..Min(pageSize, |queryset|)]
    ensures PaginateQueryset(queryset, None, None, DefaultPageSize) == queryset[..Min(10, |queryset|)]
  {
    PySliceWindow(queryset, 0, pageSize);
    PySliceWindow(queryset, 0, DefaultPageSize);
  }

  /** Adjacent pages join: the page of `l1` items at `o` followed by the
      page of `l2` items at `o + l1` is the page of `l1 + l2` items at
      `o`. */
  lemma AdjacentPagesJoin<T>(queryset: seq<T>, o: nat, l1: nat, l2: nat, pageSize: int)
    ensures PaginateQueryset(queryset, Some(l1), Some(o), pageSize) +
            PaginateQueryset(queryset, Some(l2), Some(o + l1), pageSize) ==
            PaginateQueryset(queryset, Some(l1 + l2), Some(o), pageSize)
  {
    PySliceJoin(queryset, o, o + l1, o + l1 + l2);
  }

  /** What a client collects by requesting pages of `limit` items from
      offset `o` on, stepping the offset by the limit until it passes the
      end. */
  function PagesFrom<T>(queryset: seq<T>, limit: nat, o: nat): seq<T>
    requires limit >= 1
    decreases |queryset| - o
  {
    if o >= |queryset| then []
    else PaginateQueryset(queryset, Some(limit), Some(o), DefaultPageSize) + PagesFrom(queryset, limit, o + limit)
  }

  /** Stepping the offset by the limit visits every item from the start
      offset on exactly once and in order. */
  lemma {:induction false} PagesVisitEveryItem<T>(queryset: seq<T>, limit: nat, o: nat)
    requires limit >= 1 && o <= |queryset|
    ensures PagesFrom(queryset, limit, o) == queryset[o..]
    decreases |queryset| - o
  {
    if o < |queryset| {
      var n := |queryset|;
      var page := PaginateQueryset(queryset, Some(limit), Some(o), DefaultPageSize);
      if o + limit <= n {
        PagesVisitEveryItem(queryset, limit, o + limit);
        assert SliceBound(o, n) == o && SliceBound(o + limit, n) == o + limit;
        assert page == queryset[o..o + limit];
        assert queryset[o..o + limit] + queryset[o + limit..] == queryset[o..];
      } else {
        assert SliceBound(o, n) == o && SliceBound(o + limit, n) == n;
        assert page == queryset[o..];
        assert PagesFrom(queryset, limit, o + limit) == [];
      }
    }
  }

  /** The wrapper `get_paginated_response` answers. */
  datatype PaginatedResponse<T> = PaginatedResponse(results: seq<T>)

  /** `get_paginated_response`: the data, unchanged, under `results`. */
  function GetPaginatedResponse<T>(data: seq<T>): (r: PaginatedResponse<T>)
    ensures r.results == data
  {
    PaginatedResponse(data)
  }

  /** `customDecoder`: decoding leaves the object as it is, so it can be
      applied any number of times. */
  function CustomDecoder<T>(obj: T): (r: T)
    ensures r == obj
  {
    obj
  }
}
