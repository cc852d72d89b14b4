/**
 * The call-detail-record hook: the query parameters it pages and resets,
 * and how it files a response or an error into its state.
 */
module CdrApi {
  import opened Wrappers

  /** The query: dates are kept as the text they are sent as. */
  datatype CdrParams = CdrParams(
    page: int, limit: int, company: string, userTag: Option<string>, telco: string,
    disposition: string, cnum: string, keyword: string, gteDate: string, lteDate: string)

  /** `nextPage`: the next page, the rest of the query as it was. */
  function NextPage(p: CdrParams): (r: CdrParams)
    ensures r.page == p.page + 1
    ensures r.(page := p.page) == p
  {
    p.(page := p.page + 1)
  }

  /** `prevPage`: the previous page, never below the first. */
  function PrevPage(p: CdrParams): (r: CdrParams)
    ensures r.page >= 1
    ensures p.page > 1 ==> r.page == p.page - 1
    ensures p.page <= 1 ==> r.page == 1
    ensures r.(page := p.page) == p
  {
    p.(page := if p.page - 1 > 1 then p.page - 1 else 1)
  }

  /** `resetFilters`: the first page with every text filter cleared; limit, tag and dates stay. */
  function ResetFilters(p: CdrParams): (r: CdrParams)
    ensures r.page == 1 && r.keyword == "" && r.company == "" && r.telco == ""
    ensures r.disposition == "" && r.cnum == ""
    ensures r.limit == p.limit && r.userTag == p.userTag && r.gteDate == p.gteDate && r.lteDate == p.lteDate
  {
    p.(page := 1, keyword := "", company := "", telco := "", disposition := "", cnum := "")
  }

  /** Going forward and back returns to the same query from any real page. */
  lemma PrevUndoesNext(p: CdrParams)
    requires p.page >= 1
    ensures PrevPage(NextPage(p)) == p
  {
  }

  /** Resetting twice is resetting once, and paging after a reset keeps the filters cleared. */
  lemma ResetIdempotent(p: CdrParams)
    ensures ResetFilters(ResetFilters(p)) == ResetFilters(p)
    ensures ResetFilters(NextPage(p)) == ResetFilters(p)
    ensures ResetFilters(PrevPage(p)) == ResetFilters(p)
  {
  }

  /** The records shown and their totals. */
  datatype CdrData = CdrData(listCdr: seq<int>, totalCall: int, count: int, isLoading: bool)

  /**
   * The `data` of a response: `total` and `count` when present, the records,
   * and the `totalCall` of each disposition summary (None when the summary
   * list is missing, which makes reading its first element throw).
   */
  datatype CdrResult = CdrResult(total: Option<int>, data: seq<int>, totalCalls: Option<seq<int>>, count: Option<int>)

  /** The outcome of the request: a body, whose `data.data` may be missing, or an error. */
  datatype Outcome = Responded(result: Option<CdrResult>) | Failed(err: FetchError)

  /** An error: the HTTP status and the server's message, when there is a response. */
  datatype FetchError = FetchError(status: Option<int>, message: Option<string>)

  const SESSION_EXPIRED := "Phiên đăng nhập hết hạn. Vui lòng đăng nhập lại."
  const CDR_LOAD_FAILED := "Không thể tải dữ liệu CDR"

  /** The error reading a missing summary list raises: no response at all. */
  const MISSING_SUMMARY_ERROR := FetchError(None, None)

  /** `x || 0` for a number that may be missing. */
  function OrZero(x: Option<int>): int
  {
    if x.Some? && x.value != 0 then x.value else 0
  }

  /** The toast for an error: the session message on 403, else the server's message or the fallback. */
  function ErrorToast(e: FetchError, fallback: string): (r: string)
    ensures e.status == Some(403) ==> r == SESSION_EXPIRED
    ensures e.status != Some(403) && e.message.Some? && e.message.value != "" ==> r == e.message.value
    ensures e.status != Some(403) && (e.message.None? || e.message.value == "") ==> r == fallback
  {
    if e.status == Some(403) then SESSION_EXPIRED
    else if e.message.Some? && e.message.value != "" then e.message.value
    else fallback
  }

  /** The error the request ends in, if any: a failed request, or a body whose summary list is missing. */
  function RequestError(outcome: Outcome): (r: Option<FetchError>)
    ensures outcome.Failed? ==> r == Some(outcome.err)
    ensures outcome.Responded? && outcome.result.None? ==> r.None?
    ensures outcome.Responded? && outcome.result.Some? ==>
              (r.Some? <==> outcome.result.value.total != Some(0) && outcome.result.value.totalCalls.None?)
    ensures outcome.Responded? && r.Some? ==> r.value == MISSING_SUMMARY_ERROR
  {
    match outcome
    case Failed(e) => Some(e)
    case Responded(result) =>
      if result.Some? && result.value.total != Some(0) && result.value.totalCalls.None? then Some(MISSING_SUMMARY_ERROR)
      else None
  }

  /** The records after a body that raised no error: replaced, emptied on a zero total, or kept without a body. */
  function Received(data: CdrData, outcome: Outcome): (r: CdrData)
    requires RequestError(outcome).None?
    ensures outcome.result.None? ==> r == data
    ensures outcome.result.Some? && outcome.result.value.total == Some(0) ==> r == CdrData([], 0, 0, false)
    ensures outcome.result.Some? && outcome.result.value.total != Some(0) ==>
              r.listCdr == outcome.result.value.data && r.count == OrZero(outcome.result.value.count) && !r.isLoading
    ensures outcome.result.Some? && outcome.result.value.total != Some(0) ==>
              var totals := outcome.result.value.totalCalls.value;
              r.totalCall == if totals == [] then 0 else totals[0]
  {
    match outcome.result
    case None => data
    case Some(res) =>
      if res.total == Some(0) then CdrData([], 0, 0, false)
      else
        var totals := res.totalCalls.value;
        CdrData(res.data, if totals == [] then 0 else totals[0], OrZero(res.count), false)
  }

  class CdrHook {
    var data: CdrData
    var error: Option<FetchError>
    var isLoading: bool
    var toasts: seq<string>

    constructor()
      ensures data == CdrData([], 0, 0, true) && error.None? && isLoading && toasts == []
    {
      data := CdrData([], 0, 0, true);
      error := None;
      isLoading := true;
      toasts := [];
    }

    /** The error path: the error is kept, loading stops, a toast explains it. */
    method Fail(e: FetchError) returns (isSessionExpired: bool)
      modifies this`error, this`isLoading, this`toasts
      ensures error == Some(e) && !isLoading
      ensures toasts == old(toasts) + [ErrorToast(e, CDR_LOAD_FAILED)]
      ensures isSessionExpired <==> e.status == Some(403)
    {
      error := Some(e);
      isLoading := false;
      if e.status == Some(403) {
        toasts := toasts + [SESSION_EXPIRED];
        return true;
      }
      toasts := toasts + [ErrorToast(e, CDR_LOAD_FAILED)];
      return false;
    }

    /**
     * `fetchCDRs`: without a token nothing is requested; a body with a
     * non-zero (or missing) total replaces the records, a zero total empties
     * them; an error is reported, and only a 403 means the session expired.
     */
    method FetchCdrs(token: Option<string>, outcome: Outcome) returns (isSessionExpired: bool)
      modifies this`data, this`error, this`isLoading, this`toasts
      ensures !isLoading
      ensures token.None? || token.value == "" ==>
                !isSessionExpired && data == old(data) && error == old(error) && toasts == old(toasts)
      ensures token.Some? && token.value != "" && RequestError(outcome).None? ==>
                !isSessionExpired && error == old(error) && toasts == old(toasts) && data == Received(old(data), outcome)
      ensures token.Some? && token.value != "" && RequestError(outcome).Some? ==>
                data == old(data) && error == RequestError(outcome) && toasts == old(toasts) + [ErrorToast(RequestError(outcome).value, CDR_LOAD_FAILED)] &&
                (isSessionExpired <==> RequestError(outcome).value.status == Some(403))
    {
      if token.None? || token.value == "" {
        isLoading := false;
        return false;
      }
      isLoading := true;
      match outcome {
        case Failed(e) =>
          isSessionExpired := Fail(e);
        case Responded(result) =>
          if result.Some? {
            var res := result.value;
            if res.total != Some(0) {
              if res.totalCalls.None? {
                isSessionExpired := Fail(MISSING_SUMMARY_ERROR);
                return;
              }
              var first := if res.totalCalls.value == [] then 0 else res.totalCalls.value[0];
              data := CdrData(res.data, first, OrZero(res.count), false);
            } else {
              data := CdrData([], 0, 0, false);
            }
          }
          isLoading := false;
          isSessionExpired := false;
      }
    }
  }
}
