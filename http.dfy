/**
 * The part of an HTTP exchange the admin client looks at: the status code
 * and the body text of the response. The transport itself is not modelled.
 */
module Http {
  import opened Wrappers

  datatype Response = Response(status: int, body: string)

  /** `StatusCode::is_success`: the 2xx range. */
  predicate IsSuccess(status: int) {
    200 <= status < 300
  }

  /**
   * The admin client's error type: a custom message, a decoding failure, or
   * the error `error_for_status` raises for a non-success status (its text is
   * produced by the HTTP library and is carried here as the status only).
   */
  datatype AdminError = Custom(message: string) | SerDe(message: string) | Status(code: int)

  /**
   * The mapping most mutating admin calls apply to a response: success gives
   * `Ok(())`, anything else an error carrying the response body.
   */
  function BodyOutcome(resp: Response): (r: Result<(), AdminError>)
    ensures r.Ok? <==> IsSuccess(resp.status)
    ensures r.Err? ==> r.error == Custom(resp.body)
  {
    if IsSuccess(resp.status) then Ok(()) else Err(Custom(resp.body))
  }

  /** A client or server error status: the only ones `error_for_status` rejects. */
  predicate IsErrorStatus(status: int) {
    400 <= status < 600
  }

  /**
   * The mapping of the topic permission calls: a success status is `Ok(())`;
   * otherwise `error_for_status` decides, failing with the status error on a
   * 4xx or 5xx status and letting any other status through as `Ok(())`. The
   * body is not read.
   */
  function StatusOutcome(resp: Response): (r: Result<(), AdminError>)
    ensures r.Ok? <==> !IsErrorStatus(resp.status)
    ensures r.Err? ==> r.error == Status(resp.status)
  {
    if IsSuccess(resp.status) then Ok(())
    else if IsErrorStatus(resp.status) then Err(Status(resp.status))
    else Ok(())
  }

  /** Every success is accepted by both mappings; the two differ only on statuses outside 2xx, 4xx and 5xx. */
  lemma OutcomesAgreeOnSuccessAndErrors(resp: Response)
    ensures IsSuccess(resp.status) ==> BodyOutcome(resp) == StatusOutcome(resp) == Ok(())
    ensures IsErrorStatus(resp.status) ==> BodyOutcome(resp).Err? && StatusOutcome(resp).Err?
    ensures BodyOutcome(resp).Ok? != StatusOutcome(resp).Ok? <==> !IsSuccess(resp.status) && !IsErrorStatus(resp.status)
  {
  }
}
