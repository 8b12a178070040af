/** src/services/JobRoleService.ts: each DAO row, joined with its
    capability and band, goes through the mapper; a missing row passes
    through as null. The DAO's queries are not part of this model: the
    rows it returns are the functions' arguments. */
module JobRoleService {
  import opened Wrappers
  import opened Models
  import opened JobRoleMapper
  import opened Js

  datatype Capability = Capability(capabilityId: int, capabilityName: string)

  datatype Band = Band(bandId: int, bandName: string)

  /** A job-role row as the DAO returns it, with the included relations. */
  datatype JobRoleRow = JobRoleRow(jobRole: JobRole, capability: Capability, band: Band)

  /** `{...jobRole, capabilityName, bandName}`. The row has no
      `statusName` property of its own, so the spread never supplies one. */
  function MapperArgument(row: JobRoleRow): (m: MapperInput)
    ensures m.jobRole == row.jobRole
    ensures m.capabilityName == row.capability.capabilityName
    ensures m.bandName == row.band.bandName
    ensures m.statusName.None?
  {
    MapperInput(row.jobRole, row.capability.capabilityName, row.band.bandName, None)
  }

  /** What the service gives the controller for one row. */
  function Respond(row: JobRoleRow): JobRoleResponse {
    MapJobRole(MapperArgument(row))
  }

  /** `getAllJobRoles` and `getAllOpenJobRoles`: `rows.map(...)`. */
  function MapAll(rows: seq<JobRoleRow>): (r: seq<JobRoleResponse>)
    ensures |r| == |rows|
    ensures forall i :: 0 <= i < |rows| ==> r[i] == Respond(rows[i])
  {
    seq(|rows|, i requires 0 <= i < |rows| => Respond(rows[i]))
  }

  /** `getJobRoleById`: null when the DAO has no row, the mapped row
      otherwise. */
  function GetJobRoleById(row: Option<JobRoleRow>): (r: Option<JobRoleResponse>)
    ensures r.None? <==> row.None?
    ensures row.Some? ==> r == Some(Respond(row.value))
  {
    match row
    case None => None
    case Some(j) => Some(Respond(j))
  }

  /** Mapping a concatenation is concatenating the mapped parts: each
      response depends on its own row only, and the order is kept. */
  lemma MapAllAppend(a: seq<JobRoleRow>, b: seq<JobRoleRow>)
    ensures MapAll(a + b) == MapAll(a) + MapAll(b)
  {
  }

  /** An empty DAO result is an empty list, not an error. */
  lemma MapAllEmpty()
    ensures MapAll([]) == []
  {
  }

  /** Each response carries its row's fields and the names of its
      capability and band, its closing date is the row's calendar date,
      and its status name is absent. */
  lemma ResponseFields(rows: seq<JobRoleRow>, i: int)
    requires 0 <= i < |rows|
    ensures var r := MapAll(rows)[i]; var j := rows[i].jobRole;
      r.jobRoleId == j.jobRoleId && r.roleName == j.roleName && r.location == j.location &&
      r.closingDate == DatePart(j.closingDate) &&
      r.description == j.description && r.responsibilities == j.responsibilities &&
      r.sharepointUrl == j.sharepointUrl &&
      r.numberOfOpenPositions == j.numberOfOpenPositions &&
      r.capability == CapabilityRef(j.capabilityId, rows[i].capability.capabilityName) &&
      r.band == BandRef(j.bandId, rows[i].band.bandName) &&
      r.status == StatusRef(j.statusId, None)
  {
  }

  /** The single-row lookup answers what the list would hold for that row. */
  lemma ByIdAgreesWithList(row: JobRoleRow)
    ensures GetJobRoleById(Some(row)) == Some(MapAll([row])[0])
  {
  }

}
