/** src/mappers/JobRoleMapper.ts: a field-for-field projection of a
    job-role row, extended with the display names, into a response. */
module JobRoleMapper {
  import opened Wrappers
  import opened Models
  import opened Js

  /** The mapper's argument: the row plus the three display names. A
      name the caller does not supply is None. */
  datatype MapperInput = MapperInput(
    jobRole: JobRole,
    capabilityName: string,
    bandName: string,
    statusName: Option<string>)

  /** What the date cut drops: the first 'T' and everything after it. */
  function TimePart(iso: string): string {
    iso[|DatePart(iso)|..]
  }

  /** `JobRoleMapper(jobRole)`. The closing date loses its time of day and
      nothing else; the names land in the nested records. */
  function MapJobRole(input: MapperInput): (r: JobRoleResponse)
    ensures 'T' !in r.closingDate && r.closingDate + TimePart(input.jobRole.closingDate) == input.jobRole.closingDate
    ensures r.capability.capabilityName == input.capabilityName && r.band.bandName == input.bandName
    ensures r.status.statusName == input.statusName
  {
    var j := input.jobRole;
    JobRoleResponse(
      j.jobRoleId, j.roleName, j.location, DatePart(j.closingDate),
      j.description, j.responsibilities, j.sharepointUrl, j.numberOfOpenPositions,
      CapabilityRef(j.capabilityId, input.capabilityName),
      BandRef(j.bandId, input.bandName),
      StatusRef(j.statusId, input.statusName))
  }

  /** Rebuilds the mapper's argument from a response and the time part
      of the closing date, which is the one thing the mapper drops. */
  function Unmap(r: JobRoleResponse, time: string): MapperInput {
    MapperInput(
      JobRole(r.jobRoleId, r.roleName, r.location, r.closingDate + time, r.description,
              r.responsibilities, r.sharepointUrl, r.numberOfOpenPositions,
              r.capability.capabilityId, r.band.bandId, r.status.statusId),
      r.capability.capabilityName, r.band.bandName, r.status.statusName)
  }

  /** The mapper loses nothing but the time of day: every field is copied,
      the three nested records are built from the flat ids and names, and
      the closing date is cut at its first 'T'. */
  lemma MapperRoundTrip(input: MapperInput)
    ensures Unmap(MapJobRole(input), TimePart(input.jobRole.closingDate)) == input
  {
    var iso := input.jobRole.closingDate;
    assert DatePart(iso) + TimePart(iso) == iso;
  }

  /** The closing date is the calendar date of an ISO timestamp. */
  lemma {:induction false} DatePartOfTimestamp(date: string, time: string)
    requires 'T' !in date
    ensures DatePart(date + "T" + time) == date
  {
    if date != [] {
      assert (date + "T" + time)[1..] == date[1..] + "T" + time;
      DatePartOfTimestamp(date[1..], time);
    }
  }

  lemma DatePartExample()
    ensures DatePart("2030-01-15T00:00:00.000Z") == "2030-01-15"
  {
    DatePartOfTimestamp("2030-01-15", "00:00:00.000Z");
    assert "2030-01-15" + "T" + "00:00:00.000Z" == "2030-01-15T00:00:00.000Z";
  }

}
