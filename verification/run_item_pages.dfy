/**
 * The paginated run-item iterator `iterateRunItems`: requests pages 1, 2,
 * ... of the dataset-run-items endpoint, yields each page's items in the
 * order the backend returns them, and stops at the first empty page, at
 * the page that reaches a reported `totalPages`, or on the first failed
 * request, which ends the iteration with an error.
 */
module RunItemPages {
  import opened Wrappers

  /** A dataset run item: binds a dataset item to a run and, optionally, to a trace. */
  datatype RunItem = RunItem(id: string, datasetItemId: string, traceId: Option<string>)

  /** One page of the response: `data` may be missing, `meta.totalPages` may be absent. */
  datatype Page = Page(data: Option<seq<RunItem>>, totalPages: Option<int>)

  /**
   * A failed request: a non-OK response with its status and body text, or
   * the message of a rejection (of `fetch` itself, of `res.json()` on a
   * malformed body, or of `res.text()` while the error is built).
   */
  datatype HttpError = HttpError(status: int, body: string) | Rejected(message: string)

  /** The backend: the response to the request for each page number. */
  type PageSource = nat -> Result<Page, HttpError>

  /** The first page requested. */
  const FirstPage: nat := 1

  /** `payload.data || []`: a missing `data` field reads as an empty page. */
  function ItemsOf(p: Page): seq<RunItem> {
    p.data.GetOr([])
  }

  /** After page `page`, no further page is requested. */
  predicate LastPage(p: Page, page: nat) {
    ItemsOf(p) == [] || (p.totalPages.Some? && page >= p.totalPages.value)
  }

  /** The iteration ends at `page`: the request failed or the page is the last. */
  predicate StopsAt(r: Result<Page, HttpError>, page: nat) {
    r.Failure? || LastPage(r.value, page)
  }

  /**
   * A backend under which the iteration ends: from page `bound` on, every
   * page stops it. Without such a bound the source loops forever.
   */
  ghost predicate Bounded(source: PageSource, bound: nat) {
    forall p: nat :: bound <= p ==> StopsAt(source(p), p)
  }

  /** What one iteration did: the pages it requested, the items it yielded, how it ended. */
  datatype Iteration = Iteration(requested: seq<nat>, items: seq<RunItem>, failure: Option<HttpError>)

  /** The last page requested. */
  function Last(it: Iteration): nat
    requires |it.requested| >= 1
  {
    it.requested[|it.requested| - 1]
  }

  /** Reference definition: the items of the given pages, in request order. */
  function ItemsOfPages(source: PageSource, pages: seq<nat>): seq<RunItem> {
    if pages == [] then []
    else
      (match source(pages[0]) case Success(p) => ItemsOf(p) case Failure(_) => [])
      + ItemsOfPages(source, pages[1..])
  }

  /**
   * The iteration from `page` on. It requests consecutive pages starting at
   * `page`, yields exactly the items of the pages it requested in request
   * order, continues past a page only when that page does not stop it, and
   * fails exactly when its last request failed.
   */
  function Iterate(source: PageSource, page: nat, bound: nat): (it: Iteration)
    requires Bounded(source, bound)
    ensures |it.requested| >= 1
    ensures forall i :: 0 <= i < |it.requested| ==> it.requested[i] == page + i
    ensures forall i :: 0 <= i < |it.requested| - 1 ==> !StopsAt(source(it.requested[i]), it.requested[i])
    ensures StopsAt(source(Last(it)), Last(it))
    ensures it.items == ItemsOfPages(source, it.requested)
    ensures it.failure.Some? <==> source(Last(it)).Failure?
    ensures it.failure.Some? ==> it.failure.value == source(Last(it)).error
    decreases bound - page
  {
    match source(page)
    case Failure(e) => Iteration([page], [], Some(e))
    case Success(p) =>
      if LastPage(p, page) then
        Iteration([page], ItemsOf(p), None)
      else
        assert page < bound;
        var rest := Iterate(source, page + 1, bound);
        assert ([page] + rest.requested)[1..] == rest.requested;
        Iteration([page] + rest.requested, ItemsOf(p) + rest.items, rest.failure)
  }

  /** A page that does not stop the iteration is followed by the iteration from the next page. */
  lemma IterateContinues(source: PageSource, page: nat, bound: nat)
    requires Bounded(source, bound)
    requires !StopsAt(source(page), page)
    ensures page < bound
    ensures var rest := Iterate(source, page + 1, bound);
            Iterate(source, page, bound)
            == Iteration([page] + rest.requested, ItemsOf(source(page).value) + rest.items, rest.failure)
  {
  }

  /** `iterateRunItems`: the iteration from page 1. */
  function RunItems(source: PageSource, bound: nat): (it: Iteration)
    requires Bounded(source, bound)
    ensures |it.requested| >= 1 && it.requested[0] == FirstPage
    ensures forall i :: 0 <= i < |it.requested| - 1 ==> it.requested[i + 1] == it.requested[i] + 1
  {
    Iterate(source, FirstPage, bound)
  }

  /** A page whose `data` is missing ends the iteration with nothing yielded from it. */
  lemma MissingDataIsEmptyPage(source: PageSource, page: nat, bound: nat)
    requires Bounded(source, bound)
    requires source(page).Success? && source(page).value.data.None?
    ensures Iterate(source, page, bound) == Iteration([page], [], None)
  {
  }

  /**
   * Under a backend that reports the same `totalPages` on every page, no
   * page beyond `totalPages` is ever requested (page 1 is always requested),
   * so the iteration makes at most `max(totalPages, 1)` requests.
   */
  lemma {:induction false} NeverBeyondTotalPages(source: PageSource, bound: nat, total: int)
    requires Bounded(source, bound)
    requires forall p: nat :: source(p).Success? ==> source(p).value.totalPages == Some(total)
    ensures forall i :: 0 <= i < |RunItems(source, bound).requested| ==>
              RunItems(source, bound).requested[i] <= if total < 1 then 1 else total
    ensures |RunItems(source, bound).requested| <= if total < 1 then 1 else total
  {
    var it := RunItems(source, bound);
    var n := |it.requested|;
    if n > 1 {
      var q := it.requested[n - 2];
      assert q == FirstPage + (n - 2);
      assert !StopsAt(source(q), q);
      assert q < total;
    }
  }

  /** Scenario: two pages of one item each, no `totalPages`, then an empty page. */
  lemma {:induction false} TwoPagesThenEmpty(a: RunItem, b: RunItem)
    ensures var source: PageSource := (p: nat) =>
              if p == 1 then Success(Page(Some([a]), None))
              else if p == 2 then Success(Page(Some([b]), None))
              else Success(Page(Some([]), None));
            RunItems(source, 3) == Iteration([1, 2, 3], [a, b], None)
  {
    var source: PageSource := (p: nat) =>
      if p == 1 then Success(Page(Some([a]), None))
      else if p == 2 then Success(Page(Some([b]), None))
      else Success(Page(Some([]), None));
    assert Bounded(source, 3);
    var it3 := Iterate(source, 3, 3);
    assert it3 == Iteration([3], [], None);
    var it2 := Iterate(source, 2, 3);
    assert it2 == Iteration([2] + it3.requested, [b] + it3.items, None);
    assert Iterate(source, 1, 3) == Iteration([1] + it2.requested, [a] + it2.items, None);
  }
}
