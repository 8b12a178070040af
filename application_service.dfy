/** src/services/ApplicationService.ts: the hire/reject state machine over
    the application store, and the create flow (validate, upload the CV,
    insert the row as InProgress).

    The pure functions `Hire`, `Reject` and `Create` state what one call
    does to the store; the `ApplicationService` class performs the same
    steps through the `ApplicationDao` and `FileStorageClient` objects and
    is proved to agree with them. */
module ApplicationService {
  import opened Wrappers
  import opened Js
  import opened Errors
  import opened Models
  import opened ApplicationStore
  import opened FileStorage

  const NotFoundMessage := "Application not found"
  const NoOpenPositionsMessage := "Cannot hire: no open positions available for this role"
  const StorageMissingMessage := "FileStorageClient not configured"
  const CvRequiredMessage := "CV file is required"

  /** `Cannot <action>: application status is "<status>"`. */
  function WrongStatusMessage(action: string, status: ApplicationStatus): string {
    "Cannot " + action + ": application status is \"" + StatusName(status) + "\""
  }

  /** A store error that escapes the service: the client's errors are
      plain Errors carrying the client's message. */
  function DaoFailure(e: DaoError): Failure {
    PlainError(DaoErrorMessage(e))
  }

  function Lift<T>(r: Result<T, DaoError>): (l: Result<T, Failure>)
    ensures l.Ok? <==> r.Ok?
    ensures l.Ok? ==> l.value == r.value
    ensures l.Err? ==> l.error == DaoFailure(r.error)
  {
    match r
    case Ok(v) => Ok(v)
    case Err(e) => Err(DaoFailure(e))
  }

  /** The response the service builds from a row with its user. It
      carries the user's email, and the row can be read back from it
      whenever the joined user is the row's own. */
  function ToResponse(w: ApplicationWithUser): (r: ApplicationResponse)
    ensures r.email == w.user.email && r.userId == w.user.userId
    ensures w.user.userId == w.application.userId ==>
      Application(r.applicationId, r.userId, r.jobRoleId, r.applicationStatus, r.cvUrl) == w.application
  {
    ApplicationResponse(
      w.application.applicationId, w.user.userId, w.user.email,
      w.application.jobRoleId, w.application.applicationStatus, w.application.cvUrl)
  }

  /** What a decision returns, and the store after it. */
  datatype ServiceStep = ServiceStep(result: Result<ApplicationResponse, Failure>, tables: Tables)

  /** `hireApplicant`: look the application up; fail if it is absent, if
      it is not InProgress, or if its role has no open position; else set
      it to Hired, then decrement its role's count. */
  function Hire(t: Tables, id: int): (r: ServiceStep)
    requires WellFormed(t)
    ensures WellFormed(r.tables)
  {
    var found := Detail(t, id);
    if found.None? then ServiceStep(Err(ApplicationNotFoundError(NotFoundMessage)), t)
    else
      var d := found.value;
      if d.application.applicationStatus != InProgress then
        ServiceStep(Err(InvalidApplicationStatusError(WrongStatusMessage("hire", d.application.applicationStatus))), t)
      else if d.jobRole.numberOfOpenPositions <= 0 then
        ServiceStep(Err(NoOpenPositionsError(NoOpenPositionsMessage)), t)
      else
        var updated := SetStatus(t, id, Hired);
        match updated.result
        case Err(e) => ServiceStep(Err(DaoFailure(e)), updated.tables)
        case Ok(w) =>
          var decremented := Decrement(updated.tables, d.application.jobRoleId);
          match decremented.result
          case Err(e) => ServiceStep(Err(DaoFailure(e)), decremented.tables)
          case Ok(_) => ServiceStep(Ok(ToResponse(w)), decremented.tables)
  }

  /** `rejectApplicant`: the same lookup and status guard as hiring, then
      set the application to Rejected. */
  function Reject(t: Tables, id: int): (r: ServiceStep)
    requires WellFormed(t)
    ensures WellFormed(r.tables)
  {
    var found := Detail(t, id);
    if found.None? then ServiceStep(Err(ApplicationNotFoundError(NotFoundMessage)), t)
    else
      var d := found.value;
      if d.application.applicationStatus != InProgress then
        ServiceStep(Err(InvalidApplicationStatusError(WrongStatusMessage("reject", d.application.applicationStatus))), t)
      else
        var updated := SetStatus(t, id, Rejected);
        match updated.result
        case Err(e) => ServiceStep(Err(DaoFailure(e)), updated.tables)
        case Ok(w) => ServiceStep(Ok(ToResponse(w)), updated.tables)
  }

  /** The open positions of a role, 0 for an absent one. */
  function OpenPositions(t: Tables, jobRoleId: int): int {
    if jobRoleId in t.jobRoles then t.jobRoles[jobRoleId].numberOfOpenPositions else 0
  }

  // Hiring, case by case.

  lemma HireNotFound(t: Tables, id: int)
    requires WellFormed(t) && id !in t.applications
    ensures Hire(t, id) == ServiceStep(Err(ApplicationNotFoundError("Application not found")), t)
  {
  }

  /** The status guard comes before the positions guard, so it fires
      whatever the count is. */
  lemma HireWrongStatus(t: Tables, id: int)
    requires WellFormed(t) && id in t.applications
    requires t.applications[id].applicationStatus != InProgress
    ensures Hire(t, id) == ServiceStep(Err(InvalidApplicationStatusError(
      WrongStatusMessage("hire", t.applications[id].applicationStatus))), t)
  {
  }

  lemma HireNoPositions(t: Tables, id: int)
    requires WellFormed(t) && id in t.applications
    requires t.applications[id].applicationStatus == InProgress
    requires t.jobRoles[t.applications[id].jobRoleId].numberOfOpenPositions <= 0
    ensures Hire(t, id) == ServiceStep(Err(NoOpenPositionsError(NoOpenPositionsMessage)), t)
  {
  }

  /** A hire that passes the guards sets the application to Hired and
      lowers its own role's count by one; nothing else changes, and
      neither store write can fail. */
  lemma HireSucceeds(t: Tables, id: int)
    requires WellFormed(t) && id in t.applications
    requires t.applications[id].applicationStatus == InProgress
    requires t.jobRoles[t.applications[id].jobRoleId].numberOfOpenPositions > 0
    ensures var app := t.applications[id];
      var role := t.jobRoles[app.jobRoleId];
      Hire(t, id) == ServiceStep(
        Ok(ApplicationResponse(id, app.userId, t.emails[app.userId], app.jobRoleId, Hired, app.cvUrl)),
        t.(applications := t.applications[id := app.(applicationStatus := Hired)],
           jobRoles := t.jobRoles[app.jobRoleId := role.(numberOfOpenPositions := role.numberOfOpenPositions - 1)]))
  {
    var app := t.applications[id];
    var updated := SetStatus(t, id, Hired);
    assert updated.tables == t.(applications := t.applications[id := app.(applicationStatus := Hired)]);
  }

  /** Hiring fails exactly when one of the three guards does. */
  lemma HireFailsOnlyOnGuards(t: Tables, id: int)
    requires WellFormed(t)
    ensures Hire(t, id).result.Err? <==>
      id !in t.applications ||
      t.applications[id].applicationStatus != InProgress ||
      t.jobRoles[t.applications[id].jobRoleId].numberOfOpenPositions <= 0
    ensures Hire(t, id).result.Err? ==> Hire(t, id).tables == t
  {
    if id in t.applications && t.applications[id].applicationStatus == InProgress &&
       t.jobRoles[t.applications[id].jobRoleId].numberOfOpenPositions > 0 {
      HireSucceeds(t, id);
    }
  }

  /** The positions guard sits before the unguarded decrement, so a hire
      never takes a count below zero. */
  lemma HireKeepsPositionsNonNegative(t: Tables, id: int)
    requires WellFormed(t) && PositionsNonNegative(t)
    ensures PositionsNonNegative(Hire(t, id).tables)
  {
    if id in t.applications && t.applications[id].applicationStatus == InProgress &&
       t.jobRoles[t.applications[id].jobRoleId].numberOfOpenPositions > 0 {
      HireSucceeds(t, id);
    }
  }

  // Rejecting, case by case.

  lemma RejectNotFound(t: Tables, id: int)
    requires WellFormed(t) && id !in t.applications
    ensures Reject(t, id) == ServiceStep(Err(ApplicationNotFoundError("Application not found")), t)
  {
  }

  lemma RejectWrongStatus(t: Tables, id: int)
    requires WellFormed(t) && id in t.applications
    requires t.applications[id].applicationStatus != InProgress
    ensures Reject(t, id) == ServiceStep(Err(InvalidApplicationStatusError(
      WrongStatusMessage("reject", t.applications[id].applicationStatus))), t)
  {
  }

  /** A reject that passes the guards sets the application to Rejected,
      whatever its role's count is; nothing else changes. */
  lemma RejectSucceeds(t: Tables, id: int)
    requires WellFormed(t) && id in t.applications
    requires t.applications[id].applicationStatus == InProgress
    ensures var app := t.applications[id];
      Reject(t, id) == ServiceStep(
        Ok(ApplicationResponse(id, app.userId, t.emails[app.userId], app.jobRoleId, Rejected, app.cvUrl)),
        t.(applications := t.applications[id := app.(applicationStatus := Rejected)]))
  {
  }

  /** Rejecting never touches a position count, whatever the outcome. */
  lemma RejectKeepsPositions(t: Tables, id: int)
    requires WellFormed(t)
    ensures Reject(t, id).tables.jobRoles == t.jobRoles
  {
  }

  // Sequences of decisions.

  datatype Decision = HireOp(applicationId: int) | RejectOp(applicationId: int)

  function Decide(t: Tables, op: Decision): (r: ServiceStep)
    requires WellFormed(t)
    ensures WellFormed(r.tables)
  {
    match op
    case HireOp(id) => Hire(t, id)
    case RejectOp(id) => Reject(t, id)
  }

  /** The store after a sequence of hire and reject calls. */
  function Run(t: Tables, ops: seq<Decision>): (r: Tables)
    requires WellFormed(t)
    ensures WellFormed(r)
    decreases |ops|
  {
    if ops == [] then t else Run(Decide(t, ops[0]).tables, ops[1..])
  }

  /** A Hired or Rejected application is never changed by a decision. */
  lemma DecisionKeepsTerminal(t: Tables, op: Decision, id: int)
    requires WellFormed(t) && id in t.applications
    requires t.applications[id].applicationStatus != InProgress
    ensures id in Decide(t, op).tables.applications
    ensures Decide(t, op).tables.applications[id] == t.applications[id]
  {
    match op
    case HireOp(k) =>
      if k in t.applications && t.applications[k].applicationStatus == InProgress &&
         t.jobRoles[t.applications[k].jobRoleId].numberOfOpenPositions > 0 {
        HireSucceeds(t, k);
      }
    case RejectOp(k) =>
  }

  /** Hired and Rejected are final: however many decisions follow, the
      application keeps its row, and any later hire or reject of it fails
      with InvalidApplicationStatusError and changes nothing. */
  lemma {:induction false} TerminalIsFinal(t: Tables, ops: seq<Decision>, id: int)
    requires WellFormed(t) && id in t.applications
    requires t.applications[id].applicationStatus != InProgress
    ensures var t' := Run(t, ops);
      id in t'.applications && t'.applications[id] == t.applications[id] &&
      Hire(t', id).result.Err? && Hire(t', id).result.error.InvalidApplicationStatusError? && Hire(t', id).tables == t' &&
      Reject(t', id).result.Err? && Reject(t', id).result.error.InvalidApplicationStatusError? && Reject(t', id).tables == t'
    decreases |ops|
  {
    if ops == [] {
      HireWrongStatus(t, id);
      RejectWrongStatus(t, id);
    } else {
      DecisionKeepsTerminal(t, ops[0], id);
      TerminalIsFinal(Decide(t, ops[0]).tables, ops[1..], id);
    }
  }

  /** Every role keeps a non-negative count through any sequence of
      decisions. */
  lemma {:induction false} PositionsStayNonNegative(t: Tables, ops: seq<Decision>)
    requires WellFormed(t) && PositionsNonNegative(t)
    ensures PositionsNonNegative(Run(t, ops))
    decreases |ops|
  {
    if ops != [] {
      match ops[0] {
        case HireOp(id) => HireKeepsPositionsNonNegative(t, id);
        case RejectOp(id) => RejectKeepsPositions(t, id);
      }
      PositionsStayNonNegative(Decide(t, ops[0]).tables, ops[1..]);
    }
  }

  /** The applications for a role that have been hired. */
  function HiredFor(t: Tables, jobRoleId: int): set<int> {
    set id | id in t.applications && t.applications[id].jobRoleId == jobRoleId &&
      t.applications[id].applicationStatus == Hired
  }

  /** One decision keeps, for every role, the number hired plus the
      number of open positions. */
  lemma DecisionConservesCapacity(t: Tables, op: Decision, jobRoleId: int)
    requires WellFormed(t)
    ensures var t' := Decide(t, op).tables;
      |HiredFor(t', jobRoleId)| + OpenPositions(t', jobRoleId) == |HiredFor(t, jobRoleId)| + OpenPositions(t, jobRoleId)
  {
    var t' := Decide(t, op).tables;
    var id := op.applicationId;
    if t' != t {
      assert id in t.applications && t.applications[id].applicationStatus == InProgress;
      var app := t.applications[id];
      if op.HireOp? {
        HireSucceeds(t, id);
        if app.jobRoleId == jobRoleId {
          assert HiredFor(t', jobRoleId) == HiredFor(t, jobRoleId) + {id};
        } else {
          assert HiredFor(t', jobRoleId) == HiredFor(t, jobRoleId);
        }
      } else {
        RejectSucceeds(t, id);
        assert HiredFor(t', jobRoleId) == HiredFor(t, jobRoleId);
      }
    }
  }

  /** Hiring only moves a position from open to filled: over any sequence
      of decisions, hired plus open stays what it was, for every role. */
  lemma {:induction false} CapacityConserved(t: Tables, ops: seq<Decision>, jobRoleId: int)
    requires WellFormed(t)
    ensures |HiredFor(Run(t, ops), jobRoleId)| + OpenPositions(Run(t, ops), jobRoleId) ==
      |HiredFor(t, jobRoleId)| + OpenPositions(t, jobRoleId)
    decreases |ops|
  {
    if ops != [] {
      DecisionConservesCapacity(t, ops[0], jobRoleId);
      CapacityConserved(Decide(t, ops[0]).tables, ops[1..], jobRoleId);
    }
  }

  // Creating an application.

  /** An id as the create flow receives it: text is read with `parseInt`,
      a number is used as it is. */
  datatype IdInput = IdText(text: string) | IdNumber(number: JsNumber)

  function ResolveId(input: IdInput): (n: JsNumber)
    ensures input.IdNumber? ==> n == input.number
    ensures input.IdText? ==> (n.NaN? <==> ParseInt(input.text).None?)
    ensures input.IdText? && ParseInt(input.text).Some? ==> n == Num(ParseInt(input.text).value)
  {
    match input
    case IdNumber(n) => n
    case IdText(s) => if ParseInt(s).Some? then Num(ParseInt(s).value) else NaN
  }

  /** What a create returns, the store after it, and the key of the CV
      it uploaded, if it got that far. */
  datatype CreateStep = CreateStep(result: Result<Application, Failure>, tables: Tables, uploaded: Option<string>)

  /** `createApplication`: no storage client, then no file, fail before
      anything is uploaded; a failed upload fails before the insert; then the
      row is inserted as InProgress with the uploaded key as its `cvUrl`. */
  function Create(t: Tables, storageConfigured: bool, userId: IdInput, jobRoleId: IdInput,
                  file: Option<CvFile>, ctx: UploadContext): (c: CreateStep)
    ensures c.uploaded.Some? <==> storageConfigured && file.Some? && ctx.sendFailure.None?
    ensures c.uploaded.Some? ==> c.uploaded.value == ObjectKey(file.value, ctx)
    ensures c.result.Ok? ==> c.uploaded.Some? && c.result.value.cvUrl == c.uploaded.value
    ensures c.result.Err? ==> c.tables == t
    ensures c.uploaded.None? ==> c.result.Err?
  {
    if !storageConfigured then CreateStep(Err(PlainError(StorageMissingMessage)), t, None)
    else if file.None? then CreateStep(Err(PlainError(CvRequiredMessage)), t, None)
    else if ctx.sendFailure.Some? then
      CreateStep(Err(PlainError(UploadFailureMessage(ctx.sendFailure.value))), t, None)
    else
      var key := ObjectKey(file.value, ctx);
      var inserted := Insert(t, ResolveId(userId), ResolveId(jobRoleId), key, InProgress);
      CreateStep(Lift(inserted.result), inserted.tables, Some(key))
  }

  /** Without a storage client or without a file, nothing is uploaded and
      nothing is inserted. */
  lemma CreateRejectsBeforeUpload(t: Tables, configured: bool, userId: IdInput, jobRoleId: IdInput,
                                  file: Option<CvFile>, ctx: UploadContext)
    requires !configured || file.None?
    ensures var c := Create(t, configured, userId, jobRoleId, file, ctx);
      c.uploaded.None? && c.tables == t &&
      c.result == Err(PlainError(if !configured then "FileStorageClient not configured" else "CV file is required"))
  {
  }

  /** A successful create adds exactly one row, under a new id, with
      status InProgress and the uploaded key as its `cvUrl`. */
  lemma CreatedRowIsInProgress(t: Tables, configured: bool, userId: IdInput, jobRoleId: IdInput,
                               file: Option<CvFile>, ctx: UploadContext)
    requires WellFormed(t)
    requires Create(t, configured, userId, jobRoleId, file, ctx).result.Ok?
    ensures var c := Create(t, configured, userId, jobRoleId, file, ctx);
      var app := c.result.value;
      configured && file.Some? &&
      c.uploaded == Some(ObjectKey(file.value, ctx)) &&
      app.applicationStatus == InProgress && app.cvUrl == c.uploaded.value &&
      Num(app.userId) == ResolveId(userId) && Num(app.jobRoleId) == ResolveId(jobRoleId) &&
      app.applicationId !in t.applications &&
      c.tables.applications == t.applications[app.applicationId := app] &&
      WellFormed(c.tables)
  {
  }

  /** Create reads its ids only through `parseInt`: ids that resolve
      alike, given as text or as numbers, give the same create. */
  lemma CreateSeesResolvedIds(t: Tables, configured: bool, u1: IdInput, u2: IdInput, j1: IdInput, j2: IdInput,
                              file: Option<CvFile>, ctx: UploadContext)
    requires ResolveId(u1) == ResolveId(u2) && ResolveId(j1) == ResolveId(j2)
    ensures Create(t, configured, u1, j1, file, ctx) == Create(t, configured, u2, j2, file, ctx)
  {
  }

  /** There is no duplicate check in the service: a second application
      for the same pair uploads its CV first, then is refused by the
      store's unique key with the store's own message, and the uploaded
      CV is left behind. */
  lemma DuplicateRefusedAfterUpload(t: Tables, userId: int, jobRoleId: int, file: CvFile, ctx: UploadContext)
    requires PairTaken(t, userId, jobRoleId) && ctx.sendFailure.None?
    ensures var c := Create(t, true, IdNumber(Num(userId)), IdNumber(Num(jobRoleId)), Some(file), ctx);
      c.uploaded.Some? && c.tables == t &&
      c.result == Err(PlainError(DaoErrorMessage(UniqueConstraintFailed)))
  {
  }

  /** The service, holding its store and its optional storage client. */
  class ApplicationService {
    const dao: ApplicationDao
    const storage: FileStorageClient?

    constructor (dao: ApplicationDao, storage: FileStorageClient?)
      ensures this.dao == dao && this.storage == storage
    {
      this.dao := dao;
      this.storage := storage;
    }

    /** `createApplication`. */
    method CreateApplication(userId: IdInput, jobRoleId: IdInput, file: Option<CvFile>, ctx: UploadContext)
      returns (r: Result<Application, Failure>)
      requires dao.Valid()
      modifies dao, storage
      ensures dao.Valid()
      ensures var c := Create(old(dao.State()), storage != null, userId, jobRoleId, file, ctx);
        r == c.result && dao.State() == c.tables &&
        (storage != null ==>
          storage.objects == if c.uploaded.Some? then old(storage.objects)[c.uploaded.value := file.value]
                             else old(storage.objects))
    {
      if storage == null {
        return Err(PlainError(StorageMissingMessage));
      }
      if file.None? {
        return Err(PlainError(CvRequiredMessage));
      }
      var fileUrl := storage.UploadFile(file.value, ctx);
      if fileUrl.Err? {
        return Err(fileUrl.error);
      }
      var saved := dao.CreateApplication(ResolveId(userId), ResolveId(jobRoleId), fileUrl.value, InProgress);
      r := Lift(saved);
    }

    /** `getApplicationsByJobRoleId`: the store's rows for the role, each
        as a response. */
    method GetApplicationsByJobRoleId(jobRoleId: int) returns (responses: seq<ApplicationResponse>)
      requires dao.Valid()
      ensures forall i :: 0 <= i < |responses| ==>
        responses[i].applicationId in dao.applications &&
        responses[i].jobRoleId == jobRoleId &&
        responses[i] == ToResponse(WithUser(dao.State(), responses[i].applicationId))
      ensures forall id :: id in dao.applications && dao.applications[id].jobRoleId == jobRoleId ==>
        exists i :: 0 <= i < |responses| && responses[i].applicationId == id
      ensures forall i, k :: 0 <= i < k < |responses| ==> responses[i].applicationId != responses[k].applicationId
    {
      var applications := dao.GetApplicationsByJobRoleId(jobRoleId);
      responses := seq(|applications|, i requires 0 <= i < |applications| => ToResponse(applications[i]));
      forall id | id in dao.applications && dao.applications[id].jobRoleId == jobRoleId
        ensures exists i :: 0 <= i < |responses| && responses[i].applicationId == id
      {
        IdsOfHasOnlyRowIds(applications, id);
        var i :| 0 <= i < |applications| && applications[i].application.applicationId == id;
        assert responses[i].applicationId == id;
      }
    }

    /** `hireApplicant`. */
    method HireApplicant(applicationId: int) returns (r: Result<ApplicationResponse, Failure>)
      requires dao.Valid()
      modifies dao
      ensures dao.Valid()
      ensures ServiceStep(r, dao.State()) == Hire(old(dao.State()), applicationId)
    {
      var application := dao.GetApplicationById(applicationId);
      if application.None? {
        return Err(ApplicationNotFoundError(NotFoundMessage));
      }
      var found := application.value;
      if found.application.applicationStatus != InProgress {
        return Err(InvalidApplicationStatusError(WrongStatusMessage("hire", found.application.applicationStatus)));
      }
      if found.jobRole.numberOfOpenPositions <= 0 {
        return Err(NoOpenPositionsError(NoOpenPositionsMessage));
      }
      var updated := dao.UpdateApplicationStatus(applicationId, Hired);
      match updated {
        case Err(e) => return Err(DaoFailure(e));
        case Ok(w) =>
          var decremented := dao.DecrementOpenPositions(found.application.jobRoleId);
          match decremented {
            case Err(e) => return Err(DaoFailure(e));
            case Ok(_) => r := Ok(ToResponse(w));
          }
      }
    }

    /** `rejectApplicant`. */
    method RejectApplicant(applicationId: int) returns (r: Result<ApplicationResponse, Failure>)
      requires dao.Valid()
      modifies dao
      ensures dao.Valid()
      ensures ServiceStep(r, dao.State()) == Reject(old(dao.State()), applicationId)
    {
      var application := dao.GetApplicationById(applicationId);
      if application.None? {
        return Err(ApplicationNotFoundError(NotFoundMessage));
      }
      var found := application.value;
      if found.application.applicationStatus != InProgress {
        return Err(InvalidApplicationStatusError(WrongStatusMessage("reject", found.application.applicationStatus)));
      }
      var updated := dao.UpdateApplicationStatus(applicationId, Rejected);
      match updated {
        case Err(e) => return Err(DaoFailure(e));
        case Ok(w) => r := Ok(ToResponse(w));
      }
    }
  }

}
