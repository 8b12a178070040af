/** src/controllers/JobRoleController.ts: each handler turns the service's
    outcome into an HTTP status and body. A service call that throws is
    `Err`; the thrown value never reaches the reply. */
module JobRoleController {
  import opened Wrappers
  import opened Js
  import opened Http
  import opened Errors
  import opened Models

  const NoJobRolesMessage := "No job roles found"
  const FetchJobRolesError := "Failed to fetch job roles"
  const FetchOpenJobRolesError := "Failed to fetch open job roles"
  const InvalidIdMessage := "Invalid job role ID"
  const NotFoundMessage := "Job role not found"
  const FetchJobRoleError := "Failed to fetch job role"

  /** A list the service resolves with; None is a null result. */
  type ListOutcome = Result<Option<seq<JobRoleResponse>>, Failure>

  predicate IsEmptyList(list: Option<seq<JobRoleResponse>>) {
    list.None? || list.value == []
  }

  /** `getJobRoles`. */
  function GetJobRoles(outcome: ListOutcome): (r: Reply<seq<JobRoleResponse>>)
    ensures outcome.Err? ==> r == Reply(500, ErrorBody(FetchJobRolesError))
    ensures outcome.Ok? && IsEmptyList(outcome.value) ==> r == Reply(404, Message(NoJobRolesMessage))
    ensures r.status == 200 <==> outcome.Ok? && !IsEmptyList(outcome.value)
    ensures r.status == 200 ==> r.body == Json(outcome.value.value)
  {
    match outcome
    case Err(_) => Reply(500, ErrorBody(FetchJobRolesError))
    case Ok(list) =>
      if IsEmptyList(list) then Reply(404, Message(NoJobRolesMessage))
      else Reply(200, Json(list.value))
  }

  /** `getOpenJobRoles`: as `getJobRoles`, but nothing to show is 204
      without a body. */
  function GetOpenJobRoles(outcome: ListOutcome): (r: Reply<seq<JobRoleResponse>>)
    ensures outcome.Err? ==> r == Reply(500, ErrorBody(FetchOpenJobRolesError))
    ensures outcome.Ok? && IsEmptyList(outcome.value) ==> r == Reply(204, NoBody)
    ensures r.status == 200 <==> outcome.Ok? && !IsEmptyList(outcome.value)
    ensures r.status == 200 ==> r.body == Json(outcome.value.value)
  {
    match outcome
    case Err(_) => Reply(500, ErrorBody(FetchOpenJobRolesError))
    case Ok(list) =>
      if IsEmptyList(list) then Reply(204, NoBody)
      else Reply(200, Json(list.value))
  }

  /** `getJobRoleById`: the path parameter goes through `parseInt`; the
      service is asked only for an id that parses. */
  function GetJobRoleById(rawId: string, service: int -> Result<Option<JobRoleResponse>, Failure>)
    : (r: Reply<JobRoleResponse>)
    ensures ParseInt(rawId).None? ==> r == Reply(400, Message(InvalidIdMessage))
    ensures ParseInt(rawId).Some? ==>
      var outcome := service(ParseInt(rawId).value);
      r == match outcome
        case Err(_) => Reply(500, ErrorBody(FetchJobRoleError))
        case Ok(None) => Reply(404, Message(NotFoundMessage))
        case Ok(Some(role)) => Reply(200, Json(role))
  {
    var id := ParseInt(rawId);
    if id.None? then Reply(400, Message(InvalidIdMessage))
    else
      match service(id.value)
      case Err(_) => Reply(500, ErrorBody(FetchJobRoleError))
      case Ok(None) => Reply(404, Message(NotFoundMessage))
      case Ok(Some(role)) => Reply(200, Json(role))
  }

  /** "invalid" and "abc123" have no leading digits. */
  lemma InvalidIdExamples(service: int -> Result<Option<JobRoleResponse>, Failure>)
    ensures GetJobRoleById("invalid", service) == Reply(400, Message(InvalidIdMessage))
    ensures GetJobRoleById("abc123", service) == Reply(400, Message(InvalidIdMessage))
  {
    ParseIntRejectsLetter("invalid");
    ParseIntRejectsLetter("abc123");
  }

  /** Whatever follows the digits is ignored: "12abc" asks for role 12. */
  lemma TrailingTextIgnored(ds: string, rest: string, service: int -> Result<Option<JobRoleResponse>, Failure>)
    requires ds != [] && AllDigits(ds)
    requires rest == [] || !IsDigit(rest[0])
    ensures GetJobRoleById(ds + rest, service) == GetJobRoleById(ds, service)
  {
    ParseIntIgnoresTrailing(ds, rest);
  }

  /** A valid id is passed to the service unchanged: the printed form of
      an id reaches the service as that id. */
  lemma PrintedIdReachesService(id: int, service: int -> Result<Option<JobRoleResponse>, Failure>)
    ensures GetJobRoleById(IntToString(id), service) ==
      match service(id)
      case Err(_) => Reply(500, ErrorBody(FetchJobRoleError))
      case Ok(None) => Reply(404, Message(NotFoundMessage))
      case Ok(Some(role)) => Reply(200, Json(role))
  {
    ParseIntOfIntToString(id);
  }

}
