/** src/dao/ApplicationDao.ts as an in-memory store. The database the
    source talks to becomes three tables held in maps (applications by
    id, job roles by id, user emails by user id) and the next id the
    database would assign. `Tables` is the store as a value and the
    functions over it are the specification; `ApplicationDao` is the
    object whose methods change it in place. */
module ApplicationStore {
  import opened Wrappers
  import opened Js
  import opened Models

  /** A row of the application table. */
  datatype Application = Application(
    applicationId: int,
    userId: int,
    jobRoleId: int,
    applicationStatus: ApplicationStatus,
    cvUrl: string)

  /** `user: { select: { userId, email } }`. */
  datatype UserRef = UserRef(userId: int, email: string)

  /** An application row with its user included. */
  datatype ApplicationWithUser = ApplicationWithUser(application: Application, user: UserRef)

  /** An application row with its user and its job role included. */
  datatype ApplicationDetail = ApplicationDetail(application: Application, user: UserRef, jobRole: JobRole)

  /** The ways the database client rejects a write. */
  datatype DaoError =
    | RecordNotFound
    | UniqueConstraintFailed
    | ForeignKeyConstraintFailed
    | InvalidArgument

  /** Representative texts of the client's error messages. */
  function DaoErrorMessage(e: DaoError): string {
    match e
    case RecordNotFound => "Record to update not found."
    case UniqueConstraintFailed => "Unique constraint failed on the fields: (`userId`,`jobRoleId`)"
    case ForeignKeyConstraintFailed => "Foreign key constraint violated"
    case InvalidArgument => "Invalid value provided. Expected Int, provided Float."
  }

  datatype Tables = Tables(
    applications: map<int, Application>,
    jobRoles: map<int, JobRole>,
    emails: map<int, string>,
    nextApplicationId: int)

  /** What a write returns, and the tables after it. */
  datatype Step<+T> = Step(result: Result<T, DaoError>, tables: Tables)

  /** Whether some application already joins user `u` to role `j`. */
  predicate PairTaken(t: Tables, u: int, j: int) {
    exists id :: id in t.applications && t.applications[id].userId == u && t.applications[id].jobRoleId == j
  }

  /** The integrity the database keeps: rows are stored under their own
      ids, below the next id to assign; every application points at an
      existing user and job role; and the `uniqueApplication` key allows
      at most one application per (user, job role) pair. */
  ghost predicate WellFormed(t: Tables) {
    (forall id :: id in t.applications ==>
      t.applications[id].applicationId == id && id < t.nextApplicationId &&
      t.applications[id].userId in t.emails && t.applications[id].jobRoleId in t.jobRoles) &&
    (forall id :: id in t.jobRoles ==> t.jobRoles[id].jobRoleId == id) &&
    (forall a, b ::
      (a in t.applications && b in t.applications &&
       t.applications[a].userId == t.applications[b].userId &&
       t.applications[a].jobRoleId == t.applications[b].jobRoleId) ==> a == b)
  }

  /** No job role has a negative number of open positions. */
  ghost predicate PositionsNonNegative(t: Tables) {
    forall id :: id in t.jobRoles ==> t.jobRoles[id].numberOfOpenPositions >= 0
  }


  /** The ids of a list of rows. */
  function IdsOf(rows: seq<ApplicationWithUser>): (ids: set<int>)
    ensures forall i :: 0 <= i < |rows| ==> rows[i].application.applicationId in ids
  {
    if rows == [] then {}
    else IdsOf(rows[..|rows| - 1]) + {rows[|rows| - 1].application.applicationId}
  }

  /** A set with no members is the empty set. */
  lemma EmptyOrInhabited(s: set<int>)
    ensures s == {} || exists y :: y in s
  {
    if forall y :: y !in s {
      assert s == {};
    }
  }

  /** Every id in `IdsOf(rows)` is the id of one of the rows. */
  lemma {:induction false} IdsOfHasOnlyRowIds(rows: seq<ApplicationWithUser>, id: int)
    requires id in IdsOf(rows)
    ensures exists i :: 0 <= i < |rows| && rows[i].application.applicationId == id
  {
    var last := rows[|rows| - 1];
    if id != last.application.applicationId {
      IdsOfHasOnlyRowIds(rows[..|rows| - 1], id);
      var i :| 0 <= i < |rows| - 1 && rows[..|rows| - 1][i].application.applicationId == id;
      assert rows[i] == rows[..|rows| - 1][i];
    }
  }

  /** The application `id` with its user included. */
  function WithUser(t: Tables, id: int): (w: ApplicationWithUser)
    requires id in t.applications && t.applications[id].userId in t.emails
    ensures w.application == t.applications[id]
    ensures w.user.userId == w.application.userId && w.user.email == t.emails[w.application.userId]
  {
    var app := t.applications[id];
    ApplicationWithUser(app, UserRef(app.userId, t.emails[app.userId]))
  }

  /** `getApplicationById`: nothing for an absent id, otherwise the row
      joined with its user and its job role. */
  function Detail(t: Tables, id: int): (d: Option<ApplicationDetail>)
    requires WellFormed(t)
    ensures d.None? <==> id !in t.applications
    ensures d.Some? ==>
      d.value.application == t.applications[id] &&
      d.value.user == UserRef(d.value.application.userId, t.emails[d.value.application.userId]) &&
      d.value.jobRole == t.jobRoles[d.value.application.jobRoleId] &&
      d.value.jobRole.jobRoleId == d.value.application.jobRoleId
  {
    if id !in t.applications then None
    else
      var app := t.applications[id];
      Some(ApplicationDetail(app, UserRef(app.userId, t.emails[app.userId]), t.jobRoles[app.jobRoleId]))
  }

  /** `updateApplicationStatus`: an absent id is RecordNotFound and
      changes nothing; otherwise only the status of row `id` changes and
      the updated row is returned with its user. */
  function SetStatus(t: Tables, id: int, status: ApplicationStatus): (r: Step<ApplicationWithUser>)
    requires WellFormed(t)
    ensures r.result.Err? <==> id !in t.applications
    ensures r.result.Err? ==> r.result.error == RecordNotFound && r.tables == t
    ensures r.result.Ok? ==>
      r.tables.applications.Keys == t.applications.Keys &&
      r.tables.applications[id] == t.applications[id].(applicationStatus := status) &&
      (forall k :: k in t.applications && k != id ==> r.tables.applications[k] == t.applications[k]) &&
      r.tables.jobRoles == t.jobRoles && r.tables.emails == t.emails &&
      r.tables.nextApplicationId == t.nextApplicationId &&
      r.result.value == WithUser(r.tables, id)
    ensures WellFormed(r.tables)
  {
    if id !in t.applications then Step(Err(RecordNotFound), t)
    else
      var app := t.applications[id].(applicationStatus := status);
      var t' := t.(applications := t.applications[id := app]);
      Step(Ok(ApplicationWithUser(app, UserRef(app.userId, t.emails[app.userId]))), t')
  }

  /** `decrementOpenPositions`: an absent role is RecordNotFound and
      changes nothing; otherwise that role's count goes down by exactly
      one, with no lower bound, and nothing else changes. */
  function Decrement(t: Tables, jobRoleId: int): (r: Step<JobRole>)
    ensures r.result.Err? <==> jobRoleId !in t.jobRoles
    ensures r.result.Err? ==> r.result.error == RecordNotFound && r.tables == t
    ensures r.result.Ok? ==>
      r.tables.jobRoles.Keys == t.jobRoles.Keys &&
      r.result.value == r.tables.jobRoles[jobRoleId] &&
      r.result.value == t.jobRoles[jobRoleId].(numberOfOpenPositions := t.jobRoles[jobRoleId].numberOfOpenPositions - 1) &&
      (forall k :: k in t.jobRoles && k != jobRoleId ==> r.tables.jobRoles[k] == t.jobRoles[k]) &&
      r.tables.applications == t.applications && r.tables.emails == t.emails &&
      r.tables.nextApplicationId == t.nextApplicationId
    ensures WellFormed(t) ==> WellFormed(r.tables)
  {
    if jobRoleId !in t.jobRoles then Step(Err(RecordNotFound), t)
    else
      var role := t.jobRoles[jobRoleId];
      var role' := role.(numberOfOpenPositions := role.numberOfOpenPositions - 1);
      Step(Ok(role'), t.(jobRoles := t.jobRoles[jobRoleId := role']))
  }

  /** `createApplication`, the insert the service relies on: a NaN id is
      rejected by the client before the database sees it; then the unique
      (user, job role) key, then the two foreign keys; a row that passes
      gets the next id. A rejected insert changes nothing. */
  function Insert(t: Tables, userId: JsNumber, jobRoleId: JsNumber, cvUrl: string, status: ApplicationStatus)
    : (r: Step<Application>)
    ensures r.result.Err? ==> r.tables == t
    ensures r.result == Err(InvalidArgument) <==> userId.NaN? || jobRoleId.NaN?
    ensures r.result == Err(UniqueConstraintFailed) <==>
      userId.Num? && jobRoleId.Num? && PairTaken(t, userId.value, jobRoleId.value)
    ensures r.result == Err(ForeignKeyConstraintFailed) <==>
      userId.Num? && jobRoleId.Num? && !PairTaken(t, userId.value, jobRoleId.value) &&
      (userId.value !in t.emails || jobRoleId.value !in t.jobRoles)
    ensures r.result.Ok? <==>
      userId.Num? && jobRoleId.Num? && !PairTaken(t, userId.value, jobRoleId.value) &&
      userId.value in t.emails && jobRoleId.value in t.jobRoles
    ensures r.result.Ok? ==>
      r.result.value == Application(t.nextApplicationId, userId.value, jobRoleId.value, status, cvUrl) &&
      r.tables.applications == t.applications[t.nextApplicationId := r.result.value] &&
      r.tables.jobRoles == t.jobRoles && r.tables.emails == t.emails &&
      r.tables.nextApplicationId == t.nextApplicationId + 1
    ensures WellFormed(t) ==> WellFormed(r.tables)
  {
    if userId.NaN? || jobRoleId.NaN? then Step(Err(InvalidArgument), t)
    else if PairTaken(t, userId.value, jobRoleId.value) then Step(Err(UniqueConstraintFailed), t)
    else if userId.value !in t.emails || jobRoleId.value !in t.jobRoles then Step(Err(ForeignKeyConstraintFailed), t)
    else
      var app := Application(t.nextApplicationId, userId.value, jobRoleId.value, status, cvUrl);
      var t' := t.(applications := t.applications[t.nextApplicationId := app],
                   nextApplicationId := t.nextApplicationId + 1);
      assert WellFormed(t) ==> WellFormed(t') by {
        if WellFormed(t) {
          assert t.nextApplicationId !in t.applications;
        }
      }
      Step(Ok(app), t')
  }

  /** The unique key in action: once an application for a (user, job
      role) pair is stored, a second one for the same pair is refused. */
  lemma SecondApplicationRefused(t: Tables, u: int, j: int, cv1: string, cv2: string, s1: ApplicationStatus, s2: ApplicationStatus)
    requires Insert(t, Num(u), Num(j), cv1, s1).result.Ok?
    ensures var t' := Insert(t, Num(u), Num(j), cv1, s1).tables;
      Insert(t', Num(u), Num(j), cv2, s2) == Step(Err(UniqueConstraintFailed), t')
  {
    var t' := Insert(t, Num(u), Num(j), cv1, s1).tables;
    assert t'.applications[t.nextApplicationId].userId == u;
    assert PairTaken(t', u, j);
  }

  /** The decrement has no floor: a role with no open positions left ends
      up with -1. */
  lemma DecrementBelowZero(t: Tables, jobRoleId: int)
    requires jobRoleId in t.jobRoles && t.jobRoles[jobRoleId].numberOfOpenPositions == 0
    ensures Decrement(t, jobRoleId).tables.jobRoles[jobRoleId].numberOfOpenPositions == -1
    ensures !PositionsNonNegative(Decrement(t, jobRoleId).tables)
  {
  }

  /** The store as the service sees it. */
  class ApplicationDao {
    var applications: map<int, Application>
    var jobRoles: map<int, JobRole>
    var emails: map<int, string>
    var nextApplicationId: int

    function State(): Tables
      reads this
    {
      Tables(applications, jobRoles, emails, nextApplicationId)
    }

    ghost predicate Valid()
      reads this
    {
      WellFormed(State())
    }

    constructor (initial: Tables)
      requires WellFormed(initial)
      ensures Valid() && State() == initial
    {
      applications := initial.applications;
      jobRoles := initial.jobRoles;
      emails := initial.emails;
      nextApplicationId := initial.nextApplicationId;
    }

    /** `getApplicationsByJobRoleId`: every application for the role
        exactly once, each with its user. The query names no order, so
        the rows are gathered in an arbitrary one. */
    method GetApplicationsByJobRoleId(jobRoleId: int) returns (rows: seq<ApplicationWithUser>)
      requires Valid()
      ensures forall i :: 0 <= i < |rows| ==>
        rows[i].application.applicationId in applications &&
        rows[i].application.jobRoleId == jobRoleId &&
        rows[i] == WithUser(State(), rows[i].application.applicationId)
      ensures forall id :: id in applications && applications[id].jobRoleId == jobRoleId ==> id in IdsOf(rows)
      ensures forall i, k :: 0 <= i < k < |rows| ==>
        rows[i].application.applicationId != rows[k].application.applicationId
    {
      rows := [];
      var apps, users := applications, emails;
      ghost var t := State();
      assert forall k :: k in apps ==> apps[k].userId in users;
      var todo := apps.Keys;
      while todo != {}
        invariant todo <= apps.Keys
        invariant forall i :: 0 <= i < |rows| ==>
          rows[i].application.applicationId in apps &&
          rows[i].application.applicationId !in todo &&
          apps[rows[i].application.applicationId].jobRoleId == jobRoleId &&
          rows[i] == WithUser(t, rows[i].application.applicationId)
        invariant forall k :: k in apps && k !in todo && apps[k].jobRoleId == jobRoleId ==> k in IdsOf(rows)
        invariant forall i, k :: 0 <= i < k < |rows| ==>
          rows[i].application.applicationId != rows[k].application.applicationId
        decreases |todo|
      {
        EmptyOrInhabited(todo);
        var id :| id in todo;
        ghost var before := rows;
        todo := todo - {id};
        if apps[id].jobRoleId == jobRoleId {
          var app := apps[id];
          rows := rows + [ApplicationWithUser(app, UserRef(app.userId, users[app.userId]))];
          assert rows[..|rows| - 1] == before;
        }
      }
    }

    /** `getApplicationById`. */
    method GetApplicationById(applicationId: int) returns (d: Option<ApplicationDetail>)
      requires Valid()
      ensures d == Detail(State(), applicationId)
    {
      if applicationId !in applications {
        return None;
      }
      var app := applications[applicationId];
      d := Some(ApplicationDetail(app, UserRef(app.userId, emails[app.userId]), jobRoles[app.jobRoleId]));
    }

    /** `updateApplicationStatus`. */
    method UpdateApplicationStatus(applicationId: int, status: ApplicationStatus)
      returns (r: Result<ApplicationWithUser, DaoError>)
      requires Valid()
      modifies this
      ensures Valid()
      ensures Step(r, State()) == SetStatus(old(State()), applicationId, status)
    {
      if applicationId !in applications {
        return Err(RecordNotFound);
      }
      var app := applications[applicationId].(applicationStatus := status);
      applications := applications[applicationId := app];
      r := Ok(ApplicationWithUser(app, UserRef(app.userId, emails[app.userId])));
    }

    /** `decrementOpenPositions`. */
    method DecrementOpenPositions(jobRoleId: int) returns (r: Result<JobRole, DaoError>)
      requires Valid()
      modifies this
      ensures Valid()
      ensures Step(r, State()) == Decrement(old(State()), jobRoleId)
    {
      if jobRoleId !in jobRoles {
        return Err(RecordNotFound);
      }
      var role := jobRoles[jobRoleId];
      role := role.(numberOfOpenPositions := role.numberOfOpenPositions - 1);
      jobRoles := jobRoles[jobRoleId := role];
      r := Ok(role);
    }

    /** `createApplication`. */
    method CreateApplication(userId: JsNumber, jobRoleId: JsNumber, cvUrl: string, status: ApplicationStatus)
      returns (r: Result<Application, DaoError>)
      requires Valid()
      modifies this
      ensures Valid()
      ensures Step(r, State()) == Insert(old(State()), userId, jobRoleId, cvUrl, status)
    {
      if userId.NaN? || jobRoleId.NaN? {
        return Err(InvalidArgument);
      }
      if PairTaken(State(), userId.value, jobRoleId.value) {
        return Err(UniqueConstraintFailed);
      }
      if userId.value !in emails || jobRoleId.value !in jobRoles {
        return Err(ForeignKeyConstraintFailed);
      }
      var app := Application(nextApplicationId, userId.value, jobRoleId.value, status, cvUrl);
      applications := applications[nextApplicationId := app];
      nextApplicationId := nextApplicationId + 1;
      r := Ok(app);
    }
  }

}
