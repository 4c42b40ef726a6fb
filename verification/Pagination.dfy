/** Page arithmetic of list endpoints, and what walking the pages visits. */
module Pagination {
  import opened Domain

  datatype Page<T> = Page(items: seq<T>, count: nat, page: int, pageSize: int, totalPages: int,
                          nextPage: Option<int>, previousPage: Option<int>)

  const DEFAULT_PAGE_SIZE := 20
  const MAX_PAGE_SIZE := 100

  function Min(x: int, y: int): int { if x < y then x else y }

  /** `requested or default`, clamped between 1 and the maximum. */
  function EffectiveSize(requested: int): (size: int)
    ensures 1 <= size <= 100
    ensures 1 <= requested <= 100 ==> size == requested
    ensures requested == 0 ==> size == 20
    ensures requested < 0 ==> size == 1
    ensures requested > 100 ==> size == 100
  {
    Min(Max(1, if requested == 0 then DEFAULT_PAGE_SIZE else requested), MAX_PAGE_SIZE)
  }

  function TotalPages(count: nat, size: int): int
    requires size >= 1
  {
    if count > 0 then (count + size - 1) / size else 1
  }

  /** A Python slice of a list: bounds past the end are cut off. */
  function Slice<T>(items: seq<T>, from: int, to: int): seq<T>
    requires 0 <= from <= to
  {
    if from >= |items| then [] else items[from..Min(to, |items|)]
  }

  function Paginate<T>(items: seq<T>, page: int, pageSize: int): Page<T> {
    var size := EffectiveSize(pageSize);
    var total := TotalPages(|items|, size);
    TotalPagesBounds(|items|, size);
    var current := Min(Max(1, page), total);
    ProductIsMonotone(0, current - 1, size);
    var offset := (current - 1) * size;
    Page(Slice(items, offset, offset + size), |items|, current, size, total,
         if current < total then Some(current + 1) else None,
         if current > 1 then Some(current - 1) else None)
  }

  lemma ProductIsMonotone(x: int, y: int, size: int)
    requires x <= y && size >= 0
    ensures x * size <= y * size
  {
  }

  /** The last page is the first one that reaches the end. */
  lemma TotalPagesBounds(count: nat, size: int)
    requires size >= 1
    ensures var total := TotalPages(count, size);
            total >= 1 && (count > 0 ==> (total - 1) * size < count <= total * size)
  {
    if count > 0 {
      var n := count + size - 1;
      var total := TotalPages(count, size);
      assert n == total * size + n % size;
      assert (total - 1) * size == total * size - size;
      if total < 1 {
        ProductIsMonotone(total, 0, size);
      }
    }
  }

  /** The pages visited by following `nextPage`. */
  ghost function Forward<T>(items: seq<T>, page: int, pageSize: int): seq<Page<T>>
    decreases TotalPages(|items|, EffectiveSize(pageSize)) - page
  {
    var current := Paginate(items, page, pageSize);
    [current] + if current.nextPage.Some? then Forward(items, current.nextPage.value, pageSize) else []
  }

  /** The pages visited by following `previousPage`. */
  ghost function Backward<T>(items: seq<T>, page: int, pageSize: int): seq<Page<T>>
    decreases if Paginate(items, page, pageSize).page < 0 then 0 else Paginate(items, page, pageSize).page
  {
    var current := Paginate(items, page, pageSize);
    TotalPagesBounds(|items|, EffectiveSize(pageSize));
    [current] + if current.previousPage.Some? then Backward(items, current.previousPage.value, pageSize) else []
  }

  ghost function Concatenated<T>(pages: seq<Page<T>>): seq<T> {
    if pages == [] then [] else pages[0].items + Concatenated(pages[1..])
  }

  ghost function Reversed<T>(pages: seq<Page<T>>): seq<Page<T>> {
    if pages == [] then [] else Reversed(pages[1..]) + [pages[0]]
  }

  lemma ForwardUnfolds<T>(items: seq<T>, page: int, pageSize: int)
    requires 1 <= page <= TotalPages(|items|, EffectiveSize(pageSize))
    ensures Forward(items, page, pageSize) == [Paginate(items, page, pageSize)] +
              if page < TotalPages(|items|, EffectiveSize(pageSize)) then Forward(items, page + 1, pageSize) else []
  {
  }

  /** The pages of a list, by number. */
  ghost function Pages<T>(items: seq<T>, pageSize: int): int -> Page<T> {
    (page: int) => Paginate(items, page, pageSize)
  }

  /** A walk over consecutive pages in the direction of `step`. */
  ghost predicate Visits<T>(walk: seq<Page<T>>, pages: int -> Page<T>, page: int, step: int) {
    forall k :: 0 <= k < |walk| ==> walk[k] == pages(page + step * k)
  }

  lemma VisitsOneMore<T>(first: Page<T>, rest: seq<Page<T>>, pages: int -> Page<T>, page: int, step: int)
    requires first == pages(page) && Visits(rest, pages, page + step, step)
    ensures Visits([first] + rest, pages, page, step)
  {
    forall k | 0 < k < |rest| + 1 ensures ([first] + rest)[k] == pages(page + step * k) {
      assert rest[k - 1] == pages(page + step + step * (k - 1));
      assert page + step + step * (k - 1) == page + step * k;
    }
  }

  lemma OnePageMore<T>(items: seq<T>, page: int, pageSize: int, walk: seq<Page<T>>, rest: seq<Page<T>>, length: int)
    requires walk == [Paginate(items, page, pageSize)] + rest && |rest| == length
    requires Visits(rest, Pages(items, pageSize), page + 1, 1)
    ensures |walk| == length + 1 && Visits(walk, Pages(items, pageSize), page, 1)
  {
    VisitsOneMore(Paginate(items, page, pageSize), rest, Pages(items, pageSize), page, 1);
  }

  lemma {:induction false} ForwardVisits<T>(items: seq<T>, page: int, pageSize: int)
    requires 1 <= page <= TotalPages(|items|, EffectiveSize(pageSize))
    ensures |Forward(items, page, pageSize)| == TotalPages(|items|, EffectiveSize(pageSize)) - page + 1
    ensures Visits(Forward(items, page, pageSize), Pages(items, pageSize), page, 1)
    decreases TotalPages(|items|, EffectiveSize(pageSize)) - page
  {
    var total := TotalPages(|items|, EffectiveSize(pageSize));
    ForwardUnfolds(items, page, pageSize);
    if page < total {
      ForwardVisits(items, page + 1, pageSize);
      OnePageMore(items, page, pageSize, Forward(items, page, pageSize), Forward(items, page + 1, pageSize), total - page);
    } else {
      OnePageMore(items, page, pageSize, Forward(items, page, pageSize), [], 0);
    }
  }

  /** What one page holds: `size` items, or the rest of the list on the last page. */
  lemma PageItems<T>(items: seq<T>, page: int, pageSize: int)
    requires 1 <= page <= TotalPages(|items|, EffectiveSize(pageSize))
    ensures var size := EffectiveSize(pageSize);
            var offset := (page - 1) * size;
            && 0 <= offset <= |items|
            && (page < TotalPages(|items|, size) ==>
                  offset + size == page * size && offset + size <= |items|
                  && Paginate(items, page, pageSize).items == items[offset..offset + size])
            && (page == TotalPages(|items|, size) ==> Paginate(items, page, pageSize).items == items[offset..])
  {
    var size, total := EffectiveSize(pageSize), TotalPages(|items|, EffectiveSize(pageSize));
    TotalPagesBounds(|items|, size);
    ProductIsMonotone(0, page - 1, size);
    ProductIsMonotone(page - 1, total - 1, size);
    assert page * size == (page - 1) * size + size;
    if page < total {
      ProductIsMonotone(page, total - 1, size);
    }
  }

  lemma JoinPages<T>(items: seq<T>, from: nat, to: nat, first: Page<T>, rest: seq<Page<T>>)
    requires from <= to <= |items| && first.items == items[from..to] && Concatenated(rest) == items[to..]
    ensures Concatenated([first] + rest) == items[from..]
  {
    assert ([first] + rest)[1..] == rest;
    assert items[from..] == items[from..to] + items[to..];
  }

  /** From any page on, the walk yields the rest of the list. */
  lemma {:induction false} ForwardYieldsRest<T>(items: seq<T>, page: int, pageSize: int)
    requires 1 <= page <= TotalPages(|items|, EffectiveSize(pageSize))
    ensures 0 <= (page - 1) * EffectiveSize(pageSize) <= |items|
    ensures Concatenated(Forward(items, page, pageSize)) == items[(page - 1) * EffectiveSize(pageSize)..]
    decreases TotalPages(|items|, EffectiveSize(pageSize)) - page
  {
    var size := EffectiveSize(pageSize);
    var offset := (page - 1) * size;
    var current := Paginate(items, page, pageSize);
    PageItems(items, page, pageSize);
    ForwardUnfolds(items, page, pageSize);
    if page < TotalPages(|items|, size) {
      ForwardYieldsRest(items, page + 1, pageSize);
      JoinPages(items, offset, offset + size, current, Forward(items, page + 1, pageSize));
    } else {
      JoinPages(items, offset, |items|, current, []);
    }
  }

  lemma BackwardUnfolds<T>(items: seq<T>, page: int, pageSize: int)
    requires 1 <= page <= TotalPages(|items|, EffectiveSize(pageSize))
    ensures Backward(items, page, pageSize) == [Paginate(items, page, pageSize)] +
              if page > 1 then Backward(items, page - 1, pageSize) else []
  {
  }

  lemma {:induction false} BackwardVisits<T>(items: seq<T>, page: int, pageSize: int)
    requires 1 <= page <= TotalPages(|items|, EffectiveSize(pageSize))
    ensures |Backward(items, page, pageSize)| == page
    ensures Visits(Backward(items, page, pageSize), Pages(items, pageSize), page, -1)
    decreases page
  {
    BackwardUnfolds(items, page, pageSize);
    if page > 1 {
      BackwardVisits(items, page - 1, pageSize);
      VisitsOneMore(Paginate(items, page, pageSize), Backward(items, page - 1, pageSize), Pages(items, pageSize), page, -1);
    }
  }

  lemma {:induction false} ReversedAt<T>(pages: seq<Page<T>>, k: nat)
    requires k < |pages|
    ensures |Reversed(pages)| == |pages| && Reversed(pages)[k] == pages[|pages| - 1 - k]
    decreases |pages|
  {
    if |pages| > 1 {
      ReversedAt(pages[1..], if k < |pages| - 1 then k else 0);
    }
  }

  /** Two walks that visit the same pages in opposite order. */
  lemma OppositeWalks<T>(forth: seq<Page<T>>, back: seq<Page<T>>)
    requires |forth| == |back| && forall k :: 0 <= k < |back| ==> back[k] == forth[|forth| - 1 - k]
    ensures back == Reversed(forth)
  {
    if forth != [] {
      ReversedAt(forth, 0);
      forall k | 0 <= k < |back| ensures back[k] == Reversed(forth)[k] {
        ReversedAt(forth, k);
      }
    }
  }

  lemma ReverseWalk<T>(forth: seq<Page<T>>, back: seq<Page<T>>, pages: int -> Page<T>, total: int)
    requires |forth| == total == |back| && Visits(forth, pages, 1, 1) && Visits(back, pages, total, -1)
    ensures back == Reversed(forth)
  {
    forall k | 0 <= k < |back| ensures back[k] == forth[|forth| - 1 - k] {
      assert forth[total - 1 - k] == pages(1 + 1 * (total - 1 - k));
      assert back[k] == pages(total + -1 * k);
    }
    OppositeWalks(forth, back);
  }

  lemma BackwardReversesForward<T>(items: seq<T>, pageSize: int)
    ensures Backward(items, TotalPages(|items|, EffectiveSize(pageSize)), pageSize) == Reversed(Forward(items, 1, pageSize))
  {
    var total := TotalPages(|items|, EffectiveSize(pageSize));
    TotalPagesBounds(|items|, EffectiveSize(pageSize));
    ForwardVisits(items, 1, pageSize);
    BackwardVisits(items, total, pageSize);
    ReverseWalk(Forward(items, 1, pageSize), Backward(items, total, pageSize), Pages(items, pageSize), total);
  }

  /** Pagination partitions the list, for any requested size: following `nextPage` from page 1
      visits `totalPages` pages whose concatenation is the list, and `previousPage` reverses the walk. */
  lemma PagesPartitionTheList<T>(items: seq<T>, pageSize: int)
    ensures var total := TotalPages(|items|, EffectiveSize(pageSize));
            && |Forward(items, 1, pageSize)| == total
            && Concatenated(Forward(items, 1, pageSize)) == items
            && Backward(items, total, pageSize) == Reversed(Forward(items, 1, pageSize))
  {
    TotalPagesBounds(|items|, EffectiveSize(pageSize));
    ForwardVisits(items, 1, pageSize);
    ForwardYieldsRest(items, 1, pageSize);
    BackwardReversesForward(items, pageSize);
  }

  /** Any requested page, zero, negative or past the end included, is one of the walk. */
  lemma AnyPageIsOnTheWalk<T>(items: seq<T>, page: int, pageSize: int)
    ensures Paginate(items, page, pageSize) in Forward(items, 1, pageSize)
  {
    var total := TotalPages(|items|, EffectiveSize(pageSize));
    TotalPagesBounds(|items|, EffectiveSize(pageSize));
    ForwardVisits(items, 1, pageSize);
    var current := Paginate(items, page, pageSize).page;
    assert Paginate(items, current, pageSize) == Paginate(items, page, pageSize);
    var walk := Forward(items, 1, pageSize);
    assert walk[current - 1] == Pages(items, pageSize)(1 + 1 * (current - 1));
    assert walk[current - 1] in walk;
  }

  /** What is reported with a page: the length of the list, the size used, the number of pages of the
      walk, and the number of the page, brought into range; the links are the neighbours in range. */
  lemma PageReport<T>(items: seq<T>, page: int, pageSize: int, result: Page<T>)
    requires result == Paginate(items, page, pageSize)
    ensures result.count == |items| && result.totalPages == |Forward(items, 1, pageSize)| >= 1
    ensures result.pageSize == EffectiveSize(pageSize)
    ensures page < 1 ==> result.page == 1
    ensures 1 <= page <= result.totalPages ==> result.page == page
    ensures page > result.totalPages ==> result.page == result.totalPages
    ensures result.nextPage == if result.page == result.totalPages then None else Some(result.page + 1)
    ensures result.previousPage == if result.page == 1 then None else Some(result.page - 1)
  {
    TotalPagesBounds(|items|, EffectiveSize(pageSize));
    ForwardVisits(items, 1, pageSize);
  }

  lemma ProductStep(x: int, size: int)
    ensures x * size == (x - 1) * size + size
  {
  }

  lemma RestFits(count: nat, total: int, size: int)
    requires size >= 1 && total == TotalPages(count, size)
    ensures 0 <= count - (total - 1) * size <= size || count == 0
    ensures count > 0 ==> (total - 1) * size < count
  {
    TotalPagesBounds(count, size);
    ProductStep(total, size);
  }

  /** Every page but the last is full, and the last is empty for an empty list only. */
  lemma PagesAreFull<T>(items: seq<T>, page: int, pageSize: int)
    requires 1 <= page <= TotalPages(|items|, EffectiveSize(pageSize))
    ensures var held := Paginate(items, page, pageSize).items;
            if page < TotalPages(|items|, EffectiveSize(pageSize)) then |held| == EffectiveSize(pageSize)
            else |held| <= EffectiveSize(pageSize) && (held == [] ==> items == [])
  {
    PageItems(items, page, pageSize);
    RestFits(|items|, TotalPages(|items|, EffectiveSize(pageSize)), EffectiveSize(pageSize));
  }
}
