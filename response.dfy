/** Response envelopes and the page-count arithmetic of paginated listings
    (app/utils/response.py). */
module Response {
  import opened Base


  /** The JSON body `{success, message, data}` together with the HTTP status.
      The payload is left abstract: `hasData` says whether `data` is non-null. */
  datatype Envelope = Envelope(success: bool, message: string, hasData: bool, status: int)

  /** `success_response(data, message='Success', status_code=200)` */
  function SuccessResponse(hasData: bool := false, message: string := "Success", status: int := 200): (r: Envelope)
    ensures r.success && r.status == status && r.message == message && r.hasData == hasData
  {
    Envelope(true, message, hasData, status)
  }

  /** `error_response(message='Error', status_code=400, data=None)` */
  function ErrorResponse(message: string := "Error", status: int := 400, hasData: bool := false): (r: Envelope)
    ensures !r.success && r.status == status && r.message == message && r.hasData == hasData
  {
    Envelope(false, message, hasData, status)
  }

  /** Python's `//`: the quotient rounded towards minus infinity. */
  function FloorDiv(a: int, b: int): (q: int)
    requires b != 0
    ensures b > 0 ==> q * b <= a < q * b + b
    ensures b < 0 ==> q * b >= a > q * b + b
  {
    if b > 0 then a / b
    else if a % b == 0 then a / b   // Dafny's `/` is Euclidean: fix up for b < 0
    else a / b - 1
  }

  /** `(total + per_page - 1) // per_page` */
  function TotalPages(total: int, perPage: int): int
    requires perPage != 0
  {
    FloorDiv(total + perPage - 1, perPage)
  }

  /** The page count is the ceiling of total / per_page: enough pages to hold
      every item, and no page left empty. */
  lemma TotalPagesIsCeiling(total: int, perPage: int)
    requires perPage > 0 && total >= 0
    ensures TotalPages(total, perPage) * perPage >= total
    ensures total > 0 ==> (TotalPages(total, perPage) - 1) * perPage < total
    ensures TotalPages(total, perPage) >= 0
  {
    var q := TotalPages(total, perPage);
    assert q * perPage <= total + perPage - 1 < q * perPage + perPage;
  }

  /** No items means no pages; one to `per_page` items means one page. */
  lemma TotalPagesSmall(total: int, perPage: int)
    requires perPage > 0 && 0 <= total <= perPage
    ensures TotalPages(total, perPage) == if total == 0 then 0 else 1
  {
    TotalPagesIsCeiling(total, perPage);
    var q := TotalPages(total, perPage);
    if total == 0 {
      assert q * perPage <= perPage - 1;
    } else {
      assert q * perPage < total + perPage <= 2 * perPage;
    }
  }

  /** The `pagination` object of a paginated response. */
  datatype Pagination = Pagination(total: int, page: int, perPage: int, totalPages: int)

  /** `paginated_response(items, total, page, per_page, message)`: a success
      with status 200 whatever the page asked for, except that `per_page = 0`
      makes the page count divide by zero; the `ZeroDivisionError` escapes to
      the calling handler, which answers 500. */
  function PaginatedResponse(total: int, page: int, perPage: int, message: string := "Success"): (r: Result<(Envelope, Pagination)>)
    ensures r.Failure? <==> perPage == 0
    ensures r.Success? ==> r.value.0.success && r.value.0.status == 200 && r.value.0.hasData
    ensures r.Success? ==> r.value.1.total == total && r.value.1.page == page && r.value.1.perPage == perPage
    ensures perPage > 0 && total >= 0 ==>
      r.value.1.totalPages * perPage >= total && (total > 0 ==> (r.value.1.totalPages - 1) * perPage < total)
  {
    if perPage == 0 then Failure("integer division or modulo by zero")
    else
      TotalPagesIsCeiling(if total >= 0 then total else 0, if perPage > 0 then perPage else 1);
      Success((Envelope(true, message, true, 200), Pagination(total, page, perPage, TotalPages(total, perPage))))
  }
}
