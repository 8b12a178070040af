/** src/routes/ApplicationRoutes.ts: the handler of
    `POST /api/job-roles/:id/apply`. It runs after the authentication
    middleware, reads the user id from the request's user, and maps what
    `createApplication` resolves or throws to a reply. */
module ApplicationRoutes {
  import opened Wrappers
  import opened Js
  import opened Http
  import opened Errors
  import opened Models
  import opened ApplicationStore
  import opened FileStorage
  import opened AuthMiddleware
  import ApplicationService

  const UserIdRequiredMessage := "User ID is required"
  const AlreadyAppliedMessage := "You have already applied to this job role"
  const CvRequiredMessage := "CV file is required"
  const CreateFallbackMessage := "Failed to create application"

  /** The service call: user id, the raw `:id` path parameter, the file. */
  type CreateCall = (JsNumber, string, Option<CvFile>) -> Result<Application, Failure>

  /** The message the handler reads off a thrown value: an Error's own
      message, or a fixed text for anything else. */
  function ErrorMessage(f: Failure): (m: string)
    ensures IsError(f) ==> m == f.message
    ensures !IsError(f) ==> m == CreateFallbackMessage
  {
    if IsError(f) then f.message else CreateFallbackMessage
  }

  /** The reply for a thrown value, chosen by its message alone. */
  function FailureReply(f: Failure): (r: Reply<Application>)
    ensures r.body == Message(ErrorMessage(f))
    ensures r.status == 409 <==> ErrorMessage(f) == AlreadyAppliedMessage
    ensures r.status == 400 <==> ErrorMessage(f) == CvRequiredMessage
    ensures r.status in {400, 409, 500}
  {
    var message := ErrorMessage(f);
    if message == AlreadyAppliedMessage then Reply(409, Message(message))
    else if message == CvRequiredMessage then Reply(400, Message(message))
    else Reply(500, Message(message))
  }

  /** The apply handler. */
  function Apply(user: Option<AuthUser>, jobRoleId: string, file: Option<CvFile>, service: CreateCall)
    : (r: Reply<Application>)
    ensures user.None? || !NumberTruthy(user.value.sub) ==> r == Reply(400, Message(UserIdRequiredMessage))
    ensures user.Some? && NumberTruthy(user.value.sub) ==>
      r == match service(user.value.sub, jobRoleId, file)
        case Ok(saved) => Reply(200, Json(saved))
        case Err(f) => FailureReply(f)
  {
    if user.None? || !NumberTruthy(user.value.sub) then Reply(400, Message(UserIdRequiredMessage))
    else
      match service(user.value.sub, jobRoleId, file)
      case Ok(saved) => Reply(200, Json(saved))
      case Err(f) => FailureReply(f)
  }

  /** Without a usable user id the service is never asked: any two
      services give the same 400. Absent, 0 and NaN are all refused. */
  lemma FalsyUserNeverReachesService(jobRoleId: string, file: Option<CvFile>, s1: CreateCall, s2: CreateCall, email: string)
    ensures Apply(None, jobRoleId, file, s1) == Apply(None, jobRoleId, file, s2)
    ensures Apply(Some(AuthUser(Num(0), email)), jobRoleId, file, s1) == Reply(400, Message(UserIdRequiredMessage))
    ensures Apply(Some(AuthUser(NaN, email)), jobRoleId, file, s1) == Reply(400, Message(UserIdRequiredMessage))
  {
  }

  /** A thrown value that is not an Error is a 500 with the fallback
      message. */
  lemma NonErrorIs500()
    ensures FailureReply(NonError) == Reply(500, Message(CreateFallbackMessage))
  {
  }

  /** The handler over the service as it is: `createApplication` applied
      to the store `t`, a configured storage client and upload context
      `ctx`. */
  function ServiceOver(t: Tables, ctx: UploadContext): CreateCall {
    (userId: JsNumber, jobRoleId: string, file: Option<CvFile>) =>
      ApplicationService.Create(t, true, ApplicationService.IdNumber(userId), ApplicationService.IdText(jobRoleId), file, ctx).result
  }

  /** With the service as it is, a missing CV is the 400 the handler
      looks for. */
  lemma MissingCvIs400(t: Tables, ctx: UploadContext, userId: int, jobRoleId: string, email: string)
    requires userId != 0
    ensures Apply(Some(AuthUser(Num(userId), email)), jobRoleId, None, ServiceOver(t, ctx)) ==
      Reply(400, Message(CvRequiredMessage))
  {
  }

  /** The 409 branch is never reached with the service as it is: nothing
      throws "You have already applied to this job role", and a second
      application for the same role gets the store's unique-key error as
      a 500. */
  lemma DuplicateApplicationIs500(t: Tables, ctx: UploadContext, userId: int, jobRoleId: nat,
                                  file: CvFile, email: string)
    requires userId != 0 && PairTaken(t, userId, jobRoleId) && ctx.sendFailure.None?
    ensures Apply(Some(AuthUser(Num(userId), email)), IntToString(jobRoleId), Some(file), ServiceOver(t, ctx)) ==
      Reply(500, Message(DaoErrorMessage(UniqueConstraintFailed)))
  {
    DuplicateReachesStore(t, ctx, userId, jobRoleId, file);
    UniqueViolationIs500();
  }

  /** The duplicate, with its role id as path text, reaches the store and
      fails there. */
  lemma DuplicateReachesStore(t: Tables, ctx: UploadContext, userId: int, jobRoleId: nat, file: CvFile)
    requires PairTaken(t, userId, jobRoleId) && ctx.sendFailure.None?
    ensures ServiceOver(t, ctx)(Num(userId), IntToString(jobRoleId), Some(file)) ==
      Err(PlainError(DaoErrorMessage(UniqueConstraintFailed)))
  {
    var text := IntToString(jobRoleId);
    ParseIntOfIntToString(jobRoleId);
    ApplicationService.CreateSeesResolvedIds(t, true,
      ApplicationService.IdNumber(Num(userId)), ApplicationService.IdNumber(Num(userId)),
      ApplicationService.IdText(text), ApplicationService.IdNumber(Num(jobRoleId)), Some(file), ctx);
    ApplicationService.DuplicateRefusedAfterUpload(t, userId, jobRoleId, file, ctx);
  }

  /** The store's unique-key message is neither of the two the handler
      looks for. */
  lemma UniqueViolationIs500()
    ensures FailureReply(PlainError(DaoErrorMessage(UniqueConstraintFailed))) ==
      Reply(500, Message(DaoErrorMessage(UniqueConstraintFailed)))
  {
    var message := DaoErrorMessage(UniqueConstraintFailed);
    assert |message| != |AlreadyAppliedMessage| && |message| != |CvRequiredMessage|;
  }

}
