/** `ESPaginationMixin`: a view that reads the page number from the request's `page`
    parameter and paginates its search by its `page_size`. */
module Views {
  import opened Py
  import opened Pagination

  /** The mixin's `page_size` unless a view overrides it. */
  const DefaultPageSize: int := 10

  /** `get_page_number`: `int(request.GET.get('page'))`, where a missing parameter
      (`int(None)`) or one `int()` refuses counts as 1, and anything below 1 becomes 1. */
  function PageNumber(get: Entries): (n: int)
    ensures n >= 1
    ensures Get(get, "page").None? ==> n == 1
    ensures Get(get, "page").Some? && ToInt(Get(get, "page").value).Err? ==> n == 1
    ensures Get(get, "page").Some? && ToInt(Get(get, "page").value).Ok? ==>
              var m := ToInt(Get(get, "page").value).value;
              (m >= 1 ==> n == m) && (m < 1 ==> n == 1)
  {
    var parsed := match Get(get, "page")
      case None => 1
      case Some(v) => if ToInt(v).Ok? then ToInt(v).value else 1;
    if parsed < 1 then 1 else parsed
  }

  /** The page parameter round-trips: the text of any page number from 1 on reads back
      as that number. */
  lemma PageNumberOfText(n: int)
    requires n >= 1
    ensures PageNumber([("page", Str(IntToString(n)))]) == n
  {
    IntRoundTrip(n);
  }

  /** The cases a request can take: no parameter, a negative number, a word, a number. */
  lemma PageNumberExamples()
    ensures PageNumber([]) == 1
    ensures PageNumber([("page", Int(-2))]) == 1
    ensures PageNumber([("page", Str("foobar"))]) == 1
    ensures PageNumber([("page", Int(5))]) == 5
  {
    SingleParameter(Int(-2));
    SingleParameter(Int(5));
    SingleParameter(Str("foobar"));
    NotInteger("foobar");
    assert ToInt(Str("foobar")).Err?;
  }

  /** A request with only a `page` parameter. */
  lemma SingleParameter(v: Value)
    ensures Get([("page", v)], "page") == Some(v)
  {
  }

  /** Text that starts and ends with a letter is not an integer. */
  lemma NotInteger(s: string)
    requires |s| > 0 && 'a' <= s[0] <= 'z' && 'a' <= s[|s| - 1] <= 'z'
    ensures ParseInt(s).Err?
  {
    assert RStrip(s) == s;
    assert LStrip(s) == s;
    assert !IsDigit(s[0]);
  }

  /** `paginate_search`: page `get_page_number()` of the view's search in pages of
      `page_size`. A view whose page size is not negative always gets its page. */
  function PaginateSearch(search: seq<Value>, pageSize: int, get: Entries): (r: Result<Page>)
    ensures r.Ok? ==> r.value.paginator == Paginator(search, pageSize) && r.value.number == PageNumber(get)
    ensures pageSize >= 0 ==> r.Ok?
    ensures pageSize >= 1 ==> r.Ok? && |r.value.hits| <= pageSize
  {
    var number := PageNumber(get);
    MulNonNegativeIfSize(pageSize, number);
    MakePage(Paginator(search, pageSize), number)
  }

  lemma MulNonNegativeIfSize(pageSize: int, number: int)
    requires number >= 1
    ensures pageSize >= 0 ==> BottomOffset(pageSize, number) >= 0 && TopOffset(pageSize, number) >= 0
  {
    if pageSize >= 0 {
      MulNonNegative(pageSize, number - 1);
      MulNonNegative(pageSize, number);
    }
  }
}
