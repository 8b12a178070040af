/** src/controllers/ApplicationController.ts: the admin handlers for an
    application. The path id goes through `parseInt`; the service is a
    parameter, asked only for an id that parses, and a thrown error is
    `Err` with the error's class and message. */
module ApplicationController {
  import opened Wrappers
  import opened Js
  import opened Http
  import opened Errors
  import opened Models

  const InvalidJobRoleIdMessage := "Invalid job role ID"
  const InvalidApplicationIdMessage := "Invalid application ID"
  const NoApplicationsMessage := "No applications found for this job role"
  const FetchApplicationsError := "Failed to fetch applications"
  const HireError := "Failed to hire applicant"
  const RejectError := "Failed to reject applicant"

  /** `getApplicationsByJobRoleId`: 400 for an id that does not parse,
      404 for an empty list, 500 for any failure, else the list. */
  function GetApplicationsByJobRoleId(rawId: string, service: int -> Result<seq<ApplicationResponse>, Failure>)
    : (r: Reply<seq<ApplicationResponse>>)
    ensures ParseInt(rawId).None? ==> r == Reply(400, Message(InvalidJobRoleIdMessage))
    ensures ParseInt(rawId).Some? ==>
      var outcome := service(ParseInt(rawId).value);
      (outcome.Err? ==> r == Reply(500, ErrorBody(FetchApplicationsError))) &&
      (outcome == Ok([]) ==> r == Reply(404, Message(NoApplicationsMessage)))
    ensures r.status == 200 <==>
      ParseInt(rawId).Some? && service(ParseInt(rawId).value).Ok? && service(ParseInt(rawId).value).value != []
    ensures r.status == 200 ==> r.body == Json(service(ParseInt(rawId).value).value)
  {
    var id := ParseInt(rawId);
    if id.None? then Reply(400, Message(InvalidJobRoleIdMessage))
    else
      match service(id.value)
      case Err(_) => Reply(500, ErrorBody(FetchApplicationsError))
      case Ok(list) =>
        if list == [] then Reply(404, Message(NoApplicationsMessage))
        else Reply(200, Json(list))
  }

  /** How `hireApplicant` reports a failure: the not-found error is 404,
      a status or positions conflict 409, each with the error's message;
      anything else is a generic 500. */
  function HireFailure(e: Failure): (r: Reply<ApplicationResponse>)
    ensures r.status == 404 <==> e.ApplicationNotFoundError?
    ensures r.status == 409 <==> e.InvalidApplicationStatusError? || e.NoOpenPositionsError?
    ensures r.status != 500 ==> !e.NonError? && r.body == Message(e.message)
    ensures r.status == 500 ==> r.body == ErrorBody(HireError)
    ensures r.status in {404, 409, 500}
  {
    match e
    case ApplicationNotFoundError(m) => Reply(404, Message(m))
    case InvalidApplicationStatusError(m) => Reply(409, Message(m))
    case NoOpenPositionsError(m) => Reply(409, Message(m))
    case _ => Reply(500, ErrorBody(HireError))
  }

  /** How `rejectApplicant` reports a failure: as hiring, except that a
      positions error has no case of its own and is a 500. */
  function RejectFailure(e: Failure): (r: Reply<ApplicationResponse>)
    ensures r.status == 404 <==> e.ApplicationNotFoundError?
    ensures r.status == 409 <==> e.InvalidApplicationStatusError?
    ensures r.status != 500 ==> !e.NonError? && r.body == Message(e.message)
    ensures r.status == 500 ==> r.body == ErrorBody(RejectError)
    ensures r.status in {404, 409, 500}
  {
    match e
    case ApplicationNotFoundError(m) => Reply(404, Message(m))
    case InvalidApplicationStatusError(m) => Reply(409, Message(m))
    case _ => Reply(500, ErrorBody(RejectError))
  }

  /** `hireApplicant`. */
  function HireApplicant(rawId: string, service: int -> Result<ApplicationResponse, Failure>)
    : (r: Reply<ApplicationResponse>)
    ensures ParseInt(rawId).None? ==> r == Reply(400, Message(InvalidApplicationIdMessage))
    ensures ParseInt(rawId).Some? ==>
      var outcome := service(ParseInt(rawId).value);
      r == match outcome
        case Ok(response) => Reply(200, Json(response))
        case Err(e) => HireFailure(e)
  {
    var id := ParseInt(rawId);
    if id.None? then Reply(400, Message(InvalidApplicationIdMessage))
    else
      match service(id.value)
      case Ok(response) => Reply(200, Json(response))
      case Err(e) => HireFailure(e)
  }

  /** `rejectApplicant`. */
  function RejectApplicant(rawId: string, service: int -> Result<ApplicationResponse, Failure>)
    : (r: Reply<ApplicationResponse>)
    ensures ParseInt(rawId).None? ==> r == Reply(400, Message(InvalidApplicationIdMessage))
    ensures ParseInt(rawId).Some? ==>
      var outcome := service(ParseInt(rawId).value);
      r == match outcome
        case Ok(response) => Reply(200, Json(response))
        case Err(e) => RejectFailure(e)
  {
    var id := ParseInt(rawId);
    if id.None? then Reply(400, Message(InvalidApplicationIdMessage))
    else
      match service(id.value)
      case Ok(response) => Reply(200, Json(response))
      case Err(e) => RejectFailure(e)
  }

  /** An id that `parseInt` reads as NaN (no digit after the leading
      whitespace and sign) is refused before the service is asked,
      whatever the service would say. */
  lemma InvalidIdNeverReachesService(rawId: string,
                                     hire1: int -> Result<ApplicationResponse, Failure>,
                                     hire2: int -> Result<ApplicationResponse, Failure>)
    requires ParseInt(rawId).None?
    ensures HireApplicant(rawId, hire1) == HireApplicant(rawId, hire2) == Reply(400, Message(InvalidApplicationIdMessage))
    ensures RejectApplicant(rawId, hire1) == RejectApplicant(rawId, hire2) == Reply(400, Message(InvalidApplicationIdMessage))
  {
  }

  /** In particular, an id that starts with a letter of either case is
      refused with 400 by both handlers. */
  lemma LetterIdIs400(rawId: string, service: int -> Result<ApplicationResponse, Failure>)
    requires rawId != [] && ('a' <= rawId[0] <= 'z' || 'A' <= rawId[0] <= 'Z')
    ensures HireApplicant(rawId, service) == Reply(400, Message(InvalidApplicationIdMessage))
    ensures RejectApplicant(rawId, service) == Reply(400, Message(InvalidApplicationIdMessage))
  {
    ParseIntRejectsLetter(rawId);
  }

  /** The same service error can be a 409 when hiring and a 500 when
      rejecting: only the hire handler knows the positions error. */
  lemma NoPositionsOnlyKnownToHire(m: string)
    ensures HireFailure(NoOpenPositionsError(m)) == Reply(409, Message(m))
    ensures RejectFailure(NoOpenPositionsError(m)) == Reply(500, ErrorBody(RejectError))
  {
  }

}
