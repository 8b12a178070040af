/** The user roles of src/enums/UserRole.ts. */
module UserRole {
  import opened Wrappers

  /** The enum `UserRole`: two members, each with its own name as value. */
  datatype UserRole = ADMIN | APPLICANT

  /** The string value of a member. */
  function Value(role: UserRole): string {
    match role
    case ADMIN => "ADMIN"
    case APPLICANT => "APPLICANT"
  }

  /** `Object.values(UserRole)`, in declaration order. */
  const Values: seq<string> := [Value(ADMIN), Value(APPLICANT)]

  /** `isValidUserRole(value)`: exact, case-sensitive membership of
      `value` in the enum's values, with no trimming. */
  function IsValidUserRole(value: string): (b: bool)
    ensures b <==> value == "ADMIN" || value == "APPLICANT"
    ensures b <==> exists role: UserRole :: Value(role) == value
  {
    assert Value(ADMIN) == "ADMIN" && Value(APPLICANT) == "APPLICANT";
    value in Values
  }

  /** The narrowing that `value is UserRole` grants: the member whose
      value `value` is, when there is one. */
  function FromValue(value: string): (r: Option<UserRole>)
    ensures r.Some? <==> IsValidUserRole(value)
    ensures r.Some? ==> Value(r.value) == value
  {
    if value == "ADMIN" then Some(ADMIN)
    else if value == "APPLICANT" then Some(APPLICANT)
    else None
  }

  /** Each member is recovered from its value. */
  lemma FromValueOfValue(role: UserRole)
    ensures FromValue(Value(role)) == Some(role)
  {
  }

  /** Matching is case-sensitive and does not trim. */
  lemma NoCaseFoldingNoTrimming()
    ensures !IsValidUserRole("admin") && !IsValidUserRole("Admin") && !IsValidUserRole("Applicant")
    ensures !IsValidUserRole("ADMIN ") && !IsValidUserRole(" ADMIN")
    ensures !IsValidUserRole("") && !IsValidUserRole("   ")
  {
  }

}
