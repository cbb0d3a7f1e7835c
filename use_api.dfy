/** The data-loading hooks (src/hooks/useApi.ts): `useApi`, which runs one call and keeps its data
  * or error, and `useApiPagination`, which loads a list page by page. Each awaited call is
  * modelled as settled: its outcome arrives as a parameter. A load is split into its start (loading
  * on, error cleared) and its settlement, so that `loadMore` can be issued while a load is pending. */
module UseApi {
  import opened Wrappers
  import opened JsValues

  /** How an awaited call settled: with a value, or by throwing a value. */
  datatype Outcome<T> = Resolved(value: T) | Rejected(error: JsVal)

  /** The five state fields of `useApiPagination`. */
  datatype PageState<T> = PageState(data: seq<T>, page: int, loading: bool, error: Option<JsVal>, hasMore: bool)

  /** The first render: no data, page 1, not loading, no error, more to load. */
  function InitialPages<T>(): (s: PageState<T>)
    ensures s.data == [] && s.page == 1 && !s.loading && s.error == None && s.hasMore
  {
    PageState([], 1, false, None, true)
  }

  /** The start of `loadPage`: loading on, error cleared, the rest kept. */
  function Started<T>(s: PageState<T>): (r: PageState<T>)
    ensures r.loading && r.error == None
    ensures r.data == s.data && r.page == s.page && r.hasMore == s.hasMore
  {
    s.(loading := true, error := None)
  }

  /** The end of `loadPage(pageNumber, append)`: a resolved page is appended to the data or
    * replaces it, `hasMore` tells whether the page was full and `page` becomes the requested page;
    * a rejection only records the thrown value. Loading is over either way. */
  function Settled<T>(s: PageState<T>, limit: int, pageNumber: int, append: bool, outcome: Outcome<seq<T>>): (r: PageState<T>)
    ensures !r.loading
    ensures outcome.Resolved? ==>
      r.data == (if append then s.data + outcome.value else outcome.value) &&
      (r.hasMore <==> |outcome.value| == limit) && r.page == pageNumber && r.error == s.error
    ensures outcome.Rejected? ==>
      r.data == s.data && r.page == s.page && r.hasMore == s.hasMore && r.error == Some(outcome.error)
  {
    match outcome
    case Resolved(result) =>
      s.(data := if append then s.data + result else result, hasMore := |result| == limit,
         page := pageNumber, loading := false)
    case Rejected(e) => s.(error := Some(e), loading := false)
  }

  /** `loadPage`, start and settlement in one step. */
  function Loaded<T>(s: PageState<T>, limit: int, pageNumber: int, append: bool, outcome: Outcome<seq<T>>): PageState<T> {
    Settled(Started(s), limit, pageNumber, append, outcome)
  }

  /** `loadMore`: nothing while a load is pending or once a short page was seen; otherwise the next
    * page, appended. */
  function AfterLoadMore<T>(s: PageState<T>, limit: int, outcome: Outcome<seq<T>>): PageState<T> {
    if !s.loading && s.hasMore then Loaded(s, limit, s.page + 1, true, outcome) else s
  }

  /** `refresh`: back to no data, page 1 and more to load, then page 1 loaded in replace mode. */
  function AfterRefresh<T>(s: PageState<T>, limit: int, outcome: Outcome<seq<T>>): PageState<T> {
    Loaded(s.(data := [], page := 1, hasMore := true), limit, 1, false, outcome)
  }

  /** A successful load leaves no error behind, and a failed one leaves the list as it was. */
  lemma LoadedOutcome<T>(s: PageState<T>, limit: int, pageNumber: int, append: bool, outcome: Outcome<seq<T>>)
    ensures var r := Loaded(s, limit, pageNumber, append, outcome);
      !r.loading &&
      (outcome.Resolved? ==> r.error == None && r.page == pageNumber) &&
      (outcome.Rejected? ==> r.data == s.data && r.page == s.page && r.hasMore == s.hasMore &&
                             r.error == Some(outcome.error))
  {
  }

  /** `loadMore` is a no-op while loading and after the last (short) page. */
  lemma LoadMoreGuard<T>(s: PageState<T>, limit: int, outcome: Outcome<seq<T>>)
    ensures s.loading || !s.hasMore ==> AfterLoadMore(s, limit, outcome) == s
    ensures !s.loading && s.hasMore && outcome.Resolved? ==>
      AfterLoadMore(s, limit, outcome).data == s.data + outcome.value &&
      AfterLoadMore(s, limit, outcome).page == s.page + 1
  {
  }

  /** A refresh forgets everything loaded before: on success the data is exactly the first page;
    * on failure the list is empty, on page 1, with more to load, and the error is kept. */
  lemma RefreshForgets<T>(s: PageState<T>, limit: int, outcome: Outcome<seq<T>>)
    ensures var r := AfterRefresh(s, limit, outcome);
      !r.loading &&
      (outcome.Resolved? ==> r.data == outcome.value && r.page == 1 && r.error == None &&
                             (r.hasMore <==> |outcome.value| == limit)) &&
      (outcome.Rejected? ==> r.data == [] && r.page == 1 && r.hasMore && r.error == Some(outcome.error))
  {
  }

  /** The state after a run of `loadMore` calls, one per outcome. */
  function LoadMores<T>(s: PageState<T>, limit: int, outcomes: seq<Outcome<seq<T>>>): PageState<T>
    decreases |outcomes|
  {
    if outcomes == [] then s else LoadMores(AfterLoadMore(s, limit, outcomes[0]), limit, outcomes[1..])
  }

  /** The pages of a run of resolved outcomes, concatenated. */
  function Pages<T>(outcomes: seq<Outcome<seq<T>>>): seq<T>
    requires forall i :: 0 <= i < |outcomes| ==> outcomes[i].Resolved?
  {
    if outcomes == [] then [] else outcomes[0].value + Pages(outcomes[1..])
  }

  /** Scrolling through full pages: from an idle state with more to load, each full page is
    * appended in turn, the page number advances once per page, and there is still more to load. */
  lemma {:induction false} FullPagesAccumulate<T>(s: PageState<T>, limit: int, outcomes: seq<Outcome<seq<T>>>)
    requires !s.loading && s.hasMore
    requires forall i :: 0 <= i < |outcomes| ==> outcomes[i].Resolved? && |outcomes[i].value| == limit
    ensures var r := LoadMores(s, limit, outcomes);
      r.data == s.data + Pages(outcomes) && r.page == s.page + |outcomes| && r.hasMore && !r.loading
    decreases |outcomes|
  {
    if outcomes != [] {
      var next := AfterLoadMore(s, limit, outcomes[0]);
      FullPagesAccumulate(next, limit, outcomes[1..]);
      assert s.data + outcomes[0].value + Pages(outcomes[1..]) == s.data + Pages(outcomes);
    }
  }

  /** After a short page every further `loadMore` is ignored: the list is final. */
  lemma {:induction false} ShortPageIsLast<T>(s: PageState<T>, limit: int, page: seq<T>, outcomes: seq<Outcome<seq<T>>>)
    requires !s.loading && s.hasMore && |page| != limit
    ensures var r := AfterLoadMore(s, limit, Resolved(page));
      LoadMores(r, limit, outcomes) == r && r.data == s.data + page
    decreases |outcomes|
  {
    var r := AfterLoadMore(s, limit, Resolved(page));
    if outcomes != [] {
      assert AfterLoadMore(r, limit, outcomes[0]) == r;
      LoadMoresIdle(r, limit, outcomes[1..]);
    }
  }

  lemma {:induction false} LoadMoresIdle<T>(s: PageState<T>, limit: int, outcomes: seq<Outcome<seq<T>>>)
    requires !s.hasMore
    ensures LoadMores(s, limit, outcomes) == s
    decreases |outcomes|
  {
    if outcomes != [] {
      LoadMoresIdle(s, limit, outcomes[1..]);
    }
  }

  /** `useApiPagination`'s state; `limit` is fixed for the hook's lifetime. */
  class Pagination<T> {
    const limit: int
    var data: seq<T>
    var page: int
    var loading: bool
    var error: Option<JsVal>
    var hasMore: bool

    function State(): PageState<T>
      reads this
    {
      PageState(data, page, loading, error, hasMore)
    }

    /** The first render. The mount effect then calls `LoadPage(1, false, ...)`. */
    constructor(limit: int)
      ensures this.limit == limit && State() == InitialPages()
    {
      this.limit := limit;
      data := [];
      page := 1;
      loading := false;
      error := None;
      hasMore := true;
    }

    /** The synchronous start of `loadPage`. */
    method StartLoad()
      modifies this
      ensures State() == Started(old(State()))
    {
      loading := true;
      error := None;
    }

    /** The awaited call of `loadPage` settles. */
    method SettleLoad(pageNumber: int, append: bool, outcome: Outcome<seq<T>>)
      modifies this
      ensures State() == Settled(old(State()), limit, pageNumber, append, outcome)
    {
      match outcome {
        case Resolved(result) =>
          if append {
            data := data + result;
          } else {
            data := result;
          }
          hasMore := |result| == limit;
          page := pageNumber;
        case Rejected(e) =>
          error := Some(e);
      }
      loading := false;
    }

    /** `loadPage(pageNumber, append)`. */
    method LoadPage(pageNumber: int, append: bool, outcome: Outcome<seq<T>>)
      modifies this
      ensures State() == Loaded(old(State()), limit, pageNumber, append, outcome)
    {
      StartLoad();
      SettleLoad(pageNumber, append, outcome);
    }

    /** `loadMore`; `issued` tells whether a page was requested. */
    method LoadMore(outcome: Outcome<seq<T>>) returns (issued: bool)
      modifies this
      ensures issued == (!old(loading) && old(hasMore))
      ensures State() == AfterLoadMore(old(State()), limit, outcome)
    {
      issued := !loading && hasMore;
      if issued {
        LoadPage(page + 1, true, outcome);
      }
    }

    /** `refresh`. */
    method Refresh(outcome: Outcome<seq<T>>)
      modifies this
      ensures State() == AfterRefresh(old(State()), limit, outcome)
    {
      data := [];
      page := 1;
      hasMore := true;
      LoadPage(1, false, outcome);
    }
  }

  /** `useApi`'s state after `execute`: the value and no error, or the thrown value and no data.
    * Exactly one of the two is set, and loading is over. */
  function Executed<T>(outcome: Outcome<T>): (r: (Option<T>, Option<JsVal>))
    ensures r.0.Some? != r.1.Some?
    ensures outcome.Resolved? ==> r.0 == Some(outcome.value)
    ensures outcome.Rejected? ==> r.1 == Some(outcome.error)
  {
    match outcome
    case Resolved(v) => (Some(v), None)
    case Rejected(e) => (None, Some(e))
  }

  /** `useApi`'s state. */
  class ApiCall<T> {
    var data: Option<T>
    var loading: bool
    var error: Option<JsVal>

    /** The first render: no data, no error, loading when the call runs immediately. */
    constructor(immediate: bool)
      ensures data == None && error == None && loading == immediate
    {
      data := None;
      loading := immediate;
      error := None;
    }

    /** `execute` (and `refetch`, which calls it). */
    method Execute(outcome: Outcome<T>)
      modifies this
      ensures (data, error) == Executed(outcome) && !loading
    {
      loading := true;
      error := None;
      match outcome {
        case Resolved(v) =>
          data := Some(v);
        case Rejected(e) =>
          error := Some(e);
          data := None;
      }
      loading := false;
    }
  }
}
