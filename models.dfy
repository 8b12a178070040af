/** The records that cross module boundaries: the job-role row of
    src/models/JobRole.ts, the response shapes the mapper and the
    application service build, and the Prisma enum ApplicationStatus. */
module Models {
  import opened Wrappers

  /** The three states of an application. InProgress is the state a new
      application is created in; Hired and Rejected are terminal. */
  datatype ApplicationStatus = InProgress | Hired | Rejected

  /** The enum's string value, as it appears in JSON and in messages. */
  function StatusName(s: ApplicationStatus): string {
    match s
    case InProgress => "InProgress"
    case Hired => "Hired"
    case Rejected => "Rejected"
  }

  /** A row of the job-role table. `closingDate` is the ISO-8601 text that
      `Date.prototype.toISOString` gives for the stored date. */
  datatype JobRole = JobRole(
    jobRoleId: int,
    roleName: string,
    location: string,
    closingDate: string,
    description: string,
    responsibilities: string,
    sharepointUrl: string,
    numberOfOpenPositions: int,
    capabilityId: int,
    bandId: int,
    statusId: int)

  datatype CapabilityRef = CapabilityRef(capabilityId: int, capabilityName: string)

  datatype BandRef = BandRef(bandId: int, bandName: string)

  /** `statusName` is None when the property is undefined (and so left
      out of the JSON). */
  datatype StatusRef = StatusRef(statusId: int, statusName: Option<string>)

  /** What `JobRoleMapper` returns. */
  datatype JobRoleResponse = JobRoleResponse(
    jobRoleId: int,
    roleName: string,
    location: string,
    closingDate: string,
    description: string,
    responsibilities: string,
    sharepointUrl: string,
    numberOfOpenPositions: int,
    capability: CapabilityRef,
    band: BandRef,
    status: StatusRef)

  /** src/models/ApplicationResponse.ts. */
  datatype ApplicationResponse = ApplicationResponse(
    applicationId: int,
    userId: int,
    email: string,
    jobRoleId: int,
    applicationStatus: ApplicationStatus,
    cvUrl: string)

}
