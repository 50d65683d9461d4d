/** `ESSearchPaginator` and `Page`: a page of a search is the slice of its hits between
    two offsets computed from the page size and the page number. A search is taken as the
    ordered list of every hit it finds; executing a slice of it returns the hits inside the
    slice together with the total number of hits. */
module Pagination {
  import opened Py

  /** An `ESSearchPaginator`: the search and the page size, stored as given. */
  datatype Paginator = Paginator(search: seq<Value>, pageSize: int)

  /** A `Page`: its paginator and number as given, the hits of its slice, the total hit
      count of the whole search, and `has_other_pages`. */
  datatype Page = Page(paginator: Paginator, number: int, hits: seq<Value>, totalCount: nat, hasOtherPages: bool)

  function Min(a: int, b: int): int { if a <= b then a else b }
  function Max(a: int, b: int): int { if a <= b then b else a }

  /** The first hit of page `number`: `page_size * (page_number - 1)`. */
  function BottomOffset(pageSize: int, number: int): (b: int)
    ensures number == 1 ==> b == 0
    ensures pageSize >= 0 && number >= 1 ==> b >= 0
  {
    if pageSize >= 0 && number >= 1 then MulNonNegative(pageSize, number - 1); pageSize * (number - 1)
    else pageSize * (number - 1)
  }

  /** One past the last hit of page `number`: the bottom offset plus `page_size`. */
  function TopOffset(pageSize: int, number: int): (t: int)
    ensures t == pageSize * number
  {
    BottomOffset(pageSize, number) + pageSize
  }

  /** `search[bottom:top].execute().hits`: a search refuses a negative bound with
      ValueError; otherwise the hits are those at the positions from `bottom` up to `top`,
      as far as the search has hits. */
  function Execute(results: seq<Value>, bottom: int, top: int): (r: Result<seq<Value>>)
    ensures r.Ok? <==> 0 <= bottom && 0 <= top
    ensures r.Err? ==> r.error == ValueError
    ensures r.Ok? ==> forall i :: 0 <= i < |r.value| ==>
              bottom + i < top && bottom + i < |results| && r.value[i] == results[bottom + i]
    ensures r.Ok? ==> forall j :: bottom <= j < top && 0 <= j < |results| ==>
              j - bottom < |r.value| && r.value[j - bottom] == results[j]
  {
    if bottom < 0 || top < 0 then Err(ValueError)
    else
      var lo := Min(bottom, |results|);
      Ok(results[lo..Max(lo, Min(top, |results|))])
  }

  /** `ESSearchPaginator.page(page_number)`, that is `Page(paginator, page_number)`. */
  function MakePage(p: Paginator, number: int): (r: Result<Page>)
    ensures r.Ok? <==> 0 <= BottomOffset(p.pageSize, number) && 0 <= TopOffset(p.pageSize, number)
    ensures r.Err? ==> r.error == ValueError
    ensures r.Ok? ==> r.value.paginator == p && r.value.number == number && r.value.totalCount == |p.search|
    ensures r.Ok? ==> |r.value.hits| <= p.pageSize || r.value.hits == []
    ensures r.Ok? ==> forall i :: 0 <= i < |r.value.hits| ==>
              0 <= BottomOffset(p.pageSize, number) + i < |p.search|
              && r.value.hits[i] == p.search[BottomOffset(p.pageSize, number) + i]
  {
    var bottom := BottomOffset(p.pageSize, number);
    var top := TopOffset(p.pageSize, number);
    var hits :- Execute(p.search, bottom, top);
    Ok(Page(p, number, hits, |p.search|, |p.search| > p.pageSize * number))
  }

  /** With a positive page size, every page from 1 on can be built and no page before 1 can. */
  lemma PageExists(p: Paginator, number: int)
    requires p.pageSize >= 1
    ensures MakePage(p, number).Ok? <==> number >= 1
  {
    if number < 1 {
      assert p.pageSize * (number - 1) < 0 by {
        MulNegative(p.pageSize, number - 1);
      }
    } else {
      MulNonNegative(p.pageSize, number - 1);
      MulNonNegative(p.pageSize, number);
    }
  }

  lemma MulNegative(a: int, b: int)
    requires a >= 1 && b < 0
    ensures a * b < 0
  {
  }

  lemma MulNonNegative(a: int, b: int)
    requires a >= 0 && b >= 0
    ensures a * b >= 0
  {
  }

  /** Page `number + 1` starts where page `number` ends. */
  lemma PagesAdjoin(pageSize: int, number: int)
    ensures BottomOffset(pageSize, number + 1) == TopOffset(pageSize, number)
  {
  }

  /** The hits of page `number`, for a positive page size and a number from 1 on, are the
      results from the page's bottom offset up to its top offset, cut at the end. */
  lemma PageWindow(p: Paginator, number: int)
    requires p.pageSize >= 1 && number >= 1
    ensures MakePage(p, number).Ok?
    ensures var lo := Min(BottomOffset(p.pageSize, number), |p.search|);
            var hi := Min(TopOffset(p.pageSize, number), |p.search|);
            MakePage(p, number).value.hits == p.search[lo..hi]
  {
    PageExists(p, number);
    MulNonNegative(p.pageSize, number - 1);
  }

  /** The hits of pages 1 to `n`, one page after the other. */
  function Pages(p: Paginator, n: nat): seq<Value>
    requires p.pageSize >= 1
  {
    if n == 0 then []
    else
      PageExists(p, n);
      Pages(p, n - 1) + MakePage(p, n).value.hits
  }

  /** Pages tile the results without gap or overlap: the first `n` pages together are the
      first `n * page_size` hits of the search, or all of them when there are fewer. */
  lemma {:induction false} PagesArePrefix(p: Paginator, n: nat)
    requires p.pageSize >= 1
    ensures Pages(p, n) == p.search[..Min(p.pageSize * n, |p.search|)]
  {
    if n > 0 {
      PagesArePrefix(p, n - 1);
      PageWindow(p, n);
      var bottom := BottomOffset(p.pageSize, n);
      var top := TopOffset(p.pageSize, n);
      MulNonNegative(p.pageSize, n - 1);
      assert bottom == p.pageSize * (n - 1);
      assert top == p.pageSize * n;
      SliceConcat(p.search, Min(bottom, |p.search|), Min(top, |p.search|));
    }
  }

  lemma SliceConcat(s: seq<Value>, lo: int, hi: int)
    requires 0 <= lo <= hi <= |s|
    ensures s[..lo] + s[lo..hi] == s[..hi]
  {
  }

  /** `has_other_pages` is set exactly when the next page has a hit: it looks forward only,
      so the last page of several has none. */
  lemma HasOtherPagesIffNextPage(p: Paginator, number: int)
    requires p.pageSize >= 1 && number >= 1
    ensures MakePage(p, number).Ok? && MakePage(p, number + 1).Ok?
    ensures MakePage(p, number).value.hasOtherPages <==> MakePage(p, number + 1).value.hits != []
  {
    PageWindow(p, number);
    PageWindow(p, number + 1);
  }

  /** `has_other_pages` is set exactly when the total count exceeds the hits up to this page. */
  lemma HasOtherPagesIffMore(p: Paginator, number: int)
    requires p.pageSize >= 1 && number >= 1
    ensures MakePage(p, number).Ok?
    ensures MakePage(p, number).value.hasOtherPages <==> MakePage(p, number).value.totalCount > TopOffset(p.pageSize, number)
  {
    PageExists(p, number);
  }

  /** Three hits in pages of two: page 1 holds the first two hits and has other pages,
      page 2 holds the third and has none. */
  lemma ThreeHitsInPagesOfTwo(a: Value, b: Value, c: Value)
    ensures var p := Paginator([a, b, c], 2);
            && MakePage(p, 1) == Ok(Page(p, 1, [a, b], 3, true))
            && MakePage(p, 2) == Ok(Page(p, 2, [c], 3, false))
  {
    var p := Paginator([a, b, c], 2);
    assert p.search[0..2] == [a, b];
    assert p.search[2..3] == [c];
  }
}
