/** The paginated list page shared by the word, category, section and
    vocabulary lists: filter values and a page number drive a listing
    request, whose answer replaces the rows and the pagination shown under
    them. The four pages differ only in the data collected in `Config`. */
module ListPage {
  import opened Wrappers
  import Api

  /** `LIMIT`, the page size every list asks for. */
  const Limit: nat := 10
  const EmptyText: string := "No results found."

  // ---------------------------------------------------------------------
  // `n.toString()` for the page and limit parameters

  function Digit(d: nat): (c: char)
    requires d < 10
    ensures '0' <= c <= '9' && c as int - '0' as int == d
  {
    ('0' as int + d) as char
  }

  /** The decimal numeral of `n`: digits only, no leading zero. */
  function Decimal(n: nat): (r: string)
    ensures |r| >= 1
    ensures forall i :: 0 <= i < |r| ==> '0' <= r[i] <= '9'
    ensures n > 0 ==> r[0] != '0'
    decreases n
  {
    if n < 10 then [Digit(n)] else Decimal(n / 10) + [Digit(n % 10)]
  }

  predicate AllDigits(s: string) {
    forall i :: 0 <= i < |s| ==> '0' <= s[i] <= '9'
  }

  /** The number a server reads back from a numeral. */
  function ParseDecimal(s: string): (n: nat)
    requires AllDigits(s)
    decreases |s|
  {
    if s == [] then 0
    else ParseDecimal(s[..|s| - 1]) * 10 + (s[|s| - 1] as int - '0' as int)
  }

  /** The page number sent is the page number the server reads. */
  lemma {:induction false} ParseDecimalInverts(n: nat)
    ensures ParseDecimal(Decimal(n)) == n
    decreases n
  {
    var r := Decimal(n);
    if n >= 10 {
      ParseDecimalInverts(n / 10);
      assert r[..|r| - 1] == Decimal(n / 10);
    }
  }

  // ---------------------------------------------------------------------
  // The listing request

  /** `if (value) params.append(key, value)` for one key. */
  function IfSet(key: string, value: string): (q: seq<(string, string)>)
    ensures q == [] <==> value == ""
    ensures q != [] ==> q == [(key, value)]
  {
    if value != "" then [(key, value)] else []
  }

  /** `IfSet` for each optional key in turn. */
  function OptionalParams(keys: seq<string>, values: map<string, string>): seq<(string, string)>
    requires forall k :: k in keys ==> k in values
  {
    if keys == [] then []
    else IfSet(keys[0], values[keys[0]]) + OptionalParams(keys[1..], values)
  }

  /** The optional parameters are exactly the keys with a non-empty value,
      each sent with that value. */
  lemma {:induction false} OptionalParamsSent(keys: seq<string>, values: map<string, string>)
    requires forall k :: k in keys ==> k in values
    ensures |OptionalParams(keys, values)| <= |keys|
    ensures forall p :: p in OptionalParams(keys, values) <==> p.0 in keys && p.1 == values[p.0] && p.1 != ""
  {
    if keys != [] {
      OptionalParamsSent(keys[1..], values);
      assert forall j :: j in keys <==> j == keys[0] || j in keys[1..];
    }
  }

  /** One step of `OptionalParams`: the first key's parameter, then the rest. */
  lemma OptionalParamsCons(keys: seq<string>, values: map<string, string>)
    requires keys != [] && forall k :: k in keys ==> k in values
    ensures forall k :: k in keys[1..] ==> k in values
    ensures OptionalParams(keys, values) == IfSet(keys[0], values[keys[0]]) + OptionalParams(keys[1..], values)
  {
  }

  /** The optional parameters of two runs of keys follow one another. */
  lemma {:induction false} OptionalParamsAppend(a: seq<string>, b: seq<string>, values: map<string, string>)
    requires forall k :: k in a ==> k in values
    requires forall k :: k in b ==> k in values
    ensures forall k :: k in a + b ==> k in values
    ensures OptionalParams(a + b, values) == OptionalParams(a, values) + OptionalParams(b, values)
  {
    if a != [] {
      assert (a + b)[1..] == a[1..] + b;
      OptionalParamsAppend(a[1..], b, values);
    } else {
      assert a + b == b;
    }
  }

  /** The whole query: the non-empty optional parameters in the page's
      order, then always `page` and `limit`. */
  function Query(keys: seq<string>, values: map<string, string>, page: nat): (q: seq<(string, string)>)
    requires forall k :: k in keys ==> k in values
    ensures |q| >= 2 && q[|q| - 2] == ("page", Decimal(page)) && q[|q| - 1] == ("limit", Decimal(Limit))
    ensures q[..|q| - 2] == OptionalParams(keys, values)
  {
    OptionalParams(keys, values) + [("page", Decimal(page)), ("limit", Decimal(Limit))]
  }

  /** The request's parameters, appended one by one as `fetchData` does. */
  method BuildQuery(keys: seq<string>, values: map<string, string>, page: nat) returns (q: seq<(string, string)>)
    requires forall k :: k in keys ==> k in values
    ensures q == Query(keys, values, page)
  {
    q := [];
    var i := 0;
    while i < |keys|
      invariant 0 <= i <= |keys|
      invariant q == OptionalParams(keys[..i], values)
    {
      var value := values[keys[i]];
      assert keys[..i + 1] == keys[..i] + [keys[i]];
      OptionalParamsAppend(keys[..i], [keys[i]], values);
      if value != "" {
        q := q + [(keys[i], value)];
      }
      i := i + 1;
    }
    assert keys[..i] == keys;
    q := q + [("page", Decimal(page))];
    q := q + [("limit", Decimal(Limit))];
  }

  // ---------------------------------------------------------------------
  // The response and the pagination state

  /** `pagination` as the page keeps it; `totalPage` stays `null` until a
      server sends one. */
  datatype Pagination = Pagination(page: int, limit: int, totalPage: Option<int>, hasNextPage: bool, hasPrevPage: bool)

  const InitialPagination: Pagination := Pagination(1, Limit, None, false, false)

  /** `pagination` as the server sends it; a missing or `null` number is `None`. */
  datatype ServerPagination = ServerPagination(page: Option<int>, limit: Option<int>, totalPage: Option<int>, hasNextPage: bool, hasPrevPage: bool)

  datatype ListReply<T> = ListReply(data: seq<T>, pagination: ServerPagination)

  /** The server's pagination with `??` fallbacks: the requested page and
      `LIMIT`; the other three fields are taken as they come. */
  function Merged(server: ServerPagination, requestPage: nat): (p: Pagination)
    ensures server.page.Some? ==> p.page == server.page.value
    ensures server.page.None? ==> p.page == requestPage
    ensures server.limit.Some? ==> p.limit == server.limit.value
    ensures server.limit.None? ==> p.limit == Limit
    ensures p.totalPage == server.totalPage
    ensures p.hasNextPage == server.hasNextPage && p.hasPrevPage == server.hasPrevPage
  {
    Pagination(server.page.GetOr(requestPage), server.limit.GetOr(Limit), server.totalPage,
               server.hasNextPage, server.hasPrevPage)
  }

  /** What distinguishes one list page from another. */
  datatype Config = Config(
    paramKeys: seq<string>,    // the optional query keys, in the order they are appended
    effectKeys: set<string>,   // the filters listed in the fetch effect's dependencies
    failureText: string,       // the error when the server sends no message
    networkText: string)       // the error when no answer came

  /** The fetch effect runs again when the page or one of its filters
      changed value. */
  predicate EffectReruns(effectKeys: set<string>, before: map<string, string>, beforePage: nat,
                         after: map<string, string>, afterPage: nat)
  {
    beforePage != afterPage || exists k :: k in effectKeys && k in before && k in after && before[k] != after[k]
  }

  // ---------------------------------------------------------------------
  // The pagination bar

  /** The bar is rendered for a known total of more than one page. */
  predicate BarVisible(p: Pagination) {
    p.totalPage.Some? && p.totalPage.value > 1
  }

  predicate PrevDisabled(page: nat) { page == 1 }

  /** Next is disabled only on exactly the last known page. */
  predicate NextDisabled(page: nat, p: Pagination) {
    p.totalPage.Some? && page == p.totalPage.value
  }

  /** `Math.max(1, p - 1)`. */
  function PrevPage(page: nat): (r: nat)
    ensures r >= 1
    ensures page > 1 ==> r == page - 1
    ensures page <= 1 ==> r == 1
  {
    if page - 1 > 1 then page - 1 else 1
  }

  /** `Array.from({ length: totalPage }, (_, i) => i + 1)`: the buttons 1 to
      `totalPage`. */
  function PageNumbers(totalPage: nat): (r: seq<nat>)
    ensures |r| == totalPage
    ensures forall i :: 0 <= i < totalPage ==> r[i] == i + 1
  {
    if totalPage == 0 then [] else PageNumbers(totalPage - 1) + [totalPage]
  }

  /** Next is not disabled past the last page: on a page beyond `totalPage`
      (or with `totalPage` unknown) it stays enabled. */
  lemma NextEnabledPastLastPage(page: nat, p: Pagination)
    requires p.totalPage.None? || page > p.totalPage.value
    ensures !NextDisabled(page, p)
  {
  }

  /** From a page in range, Next and Prev keep the page in range. */
  lemma StepsStayInRange(page: nat, p: Pagination)
    requires BarVisible(p) && 1 <= page <= p.totalPage.value
    ensures !NextDisabled(page, p) ==> page + 1 <= p.totalPage.value
    ensures !PrevDisabled(page) ==> 1 <= PrevPage(page) < page
    ensures (page + 1) in PageNumbers(p.totalPage.value) || NextDisabled(page, p)
  {
    if !NextDisabled(page, p) {
      assert PageNumbers(p.totalPage.value)[page] == page + 1;
    }
  }

  class ListPage<T> {
    const cfg: Config
    /** The filter values by query key, `search` included. */
    var filters: map<string, string>
    var page: nat
    var data: seq<T>
    var pagination: Pagination
    var loading: bool
    var error: string

    ghost predicate Valid()
      reads this
    {
      page >= 1 && forall k :: k in cfg.paramKeys ==> k in filters
    }

    constructor (cfg: Config)
      ensures Valid() && this.cfg == cfg
      ensures forall k :: k in cfg.paramKeys ==> filters[k] == ""
      ensures page == 1 && data == [] && pagination == InitialPagination && !loading && error == ""
    {
      this.cfg := cfg;
      filters := map k | k in cfg.paramKeys :: "";
      page := 1;
      data := [];
      pagination := InitialPagination;
      loading := false;
      error := "";
    }

    /** The start of `fetchData`: `loading` set, `error` cleared, and the
        request's query built from the current filters and page. */
    method StartFetch() returns (query: seq<(string, string)>)
      requires Valid()
      modifies this
      ensures Valid() && loading && error == ""
      ensures query == Query(cfg.paramKeys, filters, page)
      ensures filters == old(filters) && page == old(page)
      ensures data == old(data) && pagination == old(pagination)
    {
      loading := true;
      error := "";
      query := BuildQuery(cfg.paramKeys, filters, page);
    }

    /** The end of `fetchData` for a request made on page `requestPage`: a
        success replaces the rows and merges the pagination; a failure
        records the error and keeps the rows and pagination. */
    method FinishFetch(requestPage: nat, outcome: Api.Outcome<ListReply<T>>)
      requires Valid()
      modifies this
      ensures Valid() && !loading
      ensures outcome.Success? ==> data == outcome.data.data && error == old(error)
      ensures outcome.Success? ==> pagination == Merged(outcome.data.pagination, requestPage)
      ensures !outcome.Success? ==> data == old(data) && pagination == old(pagination)
      ensures !outcome.Success? ==> error == Api.FailureText(outcome, cfg.failureText, cfg.networkText)
      ensures filters == old(filters) && page == old(page)
    {
      match outcome {
        case Success(reply) =>
          data := reply.data;
          pagination := Merged(reply.pagination, requestPage);
        case ApiFail(message) =>
          error := Api.MessageOr(message, cfg.failureText);
        case NetworkFail =>
          error := cfg.networkText;
      }
      loading := false;
    }

    /** A dropdown filter changes: that filter takes the value and the page
        goes back to 1; no other filter is touched. Reports whether the
        fetch effect runs again. */
    method SetFilter(key: string, value: string) returns (refetch: bool)
      requires Valid() && key in cfg.effectKeys && key in cfg.paramKeys
      modifies this
      ensures Valid() && filters == old(filters)[key := value] && page == 1
      ensures data == old(data) && pagination == old(pagination)
      ensures loading == old(loading) && error == old(error)
      ensures refetch == EffectReruns(cfg.effectKeys, old(filters), old(page), filters, page)
    {
      refetch := filters[key] != value || page != 1;
      ghost var before := filters;
      filters := filters[key := value];
      assert filters[key] != before[key] ==> key in cfg.effectKeys && key in before && key in filters;
      page := 1;
    }

    /** Typing in the search box only records the term; the request waits
        for the debounce. */
    method TypeSearch(term: string)
      requires Valid() && "search" in cfg.paramKeys
      modifies this
      ensures Valid() && filters == old(filters)["search" := term]
      ensures page == old(page) && data == old(data) && pagination == old(pagination)
      ensures loading == old(loading) && error == old(error)
    {
      filters := filters["search" := term];
    }

    /** The debounce timer fires: the page goes back to 1 and `fetchData`
        runs with the filters and the page it was scheduled with (the page
        before the reset). When that page was not 1, the reset also makes
        the fetch effect run again, for page 1. */
    method DebounceFired() returns (query: seq<(string, string)>, requestPage: nat, pageRefetch: bool)
      requires Valid()
      modifies this
      ensures Valid() && page == 1 && loading && error == ""
      ensures requestPage == old(page) && query == Query(cfg.paramKeys, filters, requestPage)
      ensures pageRefetch <==> old(page) != 1
      ensures filters == old(filters) && data == old(data) && pagination == old(pagination)
    {
      requestPage := page;
      pageRefetch := page != 1;
      page := 1;
      loading := true;
      error := "";
      query := BuildQuery(cfg.paramKeys, filters, requestPage);
    }

    /** Prev, enabled only when the bar is shown and the page is not 1. */
    method Prev() returns (refetch: bool)
      requires Valid() && BarVisible(pagination) && !PrevDisabled(page)
      modifies this
      ensures Valid() && page == PrevPage(old(page)) && page == old(page) - 1
      ensures filters == old(filters) && data == old(data) && pagination == old(pagination)
      ensures loading == old(loading) && error == old(error)
      ensures refetch
    {
      page := PrevPage(page);
      refetch := true;
    }

    /** Next, enabled unless the page is exactly the known last page. */
    method Next() returns (refetch: bool)
      requires Valid() && BarVisible(pagination) && !NextDisabled(page, pagination)
      modifies this
      ensures Valid() && page == old(page) + 1
      ensures filters == old(filters) && data == old(data) && pagination == old(pagination)
      ensures loading == old(loading) && error == old(error)
      ensures refetch
    {
      page := page + 1;
      refetch := true;
    }

    /** A numbered button. */
    method GoToPage(n: nat) returns (refetch: bool)
      requires Valid() && BarVisible(pagination) && n in PageNumbers(pagination.totalPage.value)
      modifies this
      ensures Valid() && page == n
      ensures filters == old(filters) && data == old(data) && pagination == old(pagination)
      ensures loading == old(loading) && error == old(error)
      ensures refetch <==> n != old(page)
    {
      refetch := n != page;
      page := n;
    }

    /** What is shown in place of the table: loading, else the error, else
        the "no results" line, else the rows. */
    function Body(): (b: Api.Body<T>)
      reads this
      ensures error != "" && !loading ==> b == Api.ErrorText(error)
      ensures b == Api.BodyOf(loading, error, data, EmptyText)
    {
      Api.BodyOf(loading, error, data, EmptyText)
    }
  }

  /** A failed refresh keeps the rows of the last successful one on the
      page state and shows the error in their place. */
  method FailureKeepsRows<T>(page: ListPage<T>, rows: seq<T>, server: ServerPagination, failure: Api.Outcome<ListReply<T>>)
    requires page.Valid() && !failure.Success?
    requires page.cfg.failureText != "" && page.cfg.networkText != ""
    modifies page
    ensures page.Valid() && page.data == rows && page.pagination == Merged(server, page.page)
    ensures page.Body() == Api.ErrorText(Api.FailureText(failure, page.cfg.failureText, page.cfg.networkText))
  {
    var query := page.StartFetch();
    page.FinishFetch(page.page, Api.Success(ListReply(rows, server)));
    query := page.StartFetch();
    page.FinishFetch(page.page, failure);
  }
}
