/** The password complexity rules of src/utils/password.ts. Hashing and
    verification (argon2) are not part of this module: the services take
    them as opaque functions. */
module Password {

  const MinPasswordLength := 8

  /** The characters of the class `[!@#$%^&*()_+\-=[\]{};':"\\|,.<>/?]`. */
  const SpecialCharacters: set<char> := {
    '!', '@', '#', '$', '%', '^', '&', '*', '(', ')', '_', '+', '-', '=', '[', ']',
    '{', '}', ';', '\'', ':', '"', '\\', '|', ',', '.', '<', '>', '/', '?'
  }

  const TooShortMessage := "Password must be at least 8 characters"
  const NoUppercaseMessage := "Password must contain uppercase letter"
  const NoLowercaseMessage := "Password must contain lowercase letter"
  const NoSpecialMessage := "Password must contain special character"

  predicate IsUppercase(c: char) { 'A' <= c <= 'Z' }

  predicate IsLowercase(c: char) { 'a' <= c <= 'z' }

  predicate IsSpecial(c: char) { c in SpecialCharacters }

  predicate HasUppercase(p: string) { exists i :: 0 <= i < |p| && IsUppercase(p[i]) }

  predicate HasLowercase(p: string) { exists i :: 0 <= i < |p| && IsLowercase(p[i]) }

  predicate HasSpecial(p: string) { exists i :: 0 <= i < |p| && IsSpecial(p[i]) }

  /** What `validatePassword` returns: `true`, or the message of the
      first rule that fails. */
  datatype Verdict = Accepted | Rejected(message: string)

  /** `validatePassword(password)`. The rules are tried in the order
      length, uppercase, lowercase, special character, and the first
      failing one gives the message. No digit is required. */
  function ValidatePassword(password: string): (r: Verdict)
    ensures r.Accepted? <==>
      |password| >= MinPasswordLength && HasUppercase(password) && HasLowercase(password) && HasSpecial(password)
    ensures |password| < MinPasswordLength ==> r == Rejected(TooShortMessage)
    ensures |password| >= MinPasswordLength && !HasUppercase(password) ==> r == Rejected(NoUppercaseMessage)
    ensures |password| >= MinPasswordLength && HasUppercase(password) && !HasLowercase(password) ==>
      r == Rejected(NoLowercaseMessage)
    ensures |password| >= MinPasswordLength && HasUppercase(password) && HasLowercase(password) && !HasSpecial(password) ==>
      r == Rejected(NoSpecialMessage)
  {
    if password == "" || |password| < MinPasswordLength then Rejected(TooShortMessage)
    else if !HasUppercase(password) then Rejected(NoUppercaseMessage)
    else if !HasLowercase(password) then Rejected(NoLowercaseMessage)
    else if !HasSpecial(password) then Rejected(NoSpecialMessage)
    else Accepted
  }

  /** Every rejection carries one of the four messages. */
  lemma RejectionMessages(password: string)
    ensures ValidatePassword(password).Rejected? ==>
      ValidatePassword(password).message in
        {TooShortMessage, NoUppercaseMessage, NoLowercaseMessage, NoSpecialMessage}
  {
  }

  /** Space, backquote and tilde are not special characters. */
  lemma NotSpecial()
    ensures !IsSpecial(' ') && !IsSpecial('`') && !IsSpecial('~')
  {
  }

  /** The documented examples: "Short1!" is too short, "alllowercase1!"
      lacks an uppercase letter, "GoodPass1!" passes, and so does
      "GoodPass!", which has no digit. */
  lemma Examples()
    ensures ValidatePassword("Short1!") == Rejected(TooShortMessage)
    ensures ValidatePassword("alllowercase1!") == Rejected(NoUppercaseMessage)
    ensures ValidatePassword("GoodPass1!") == Accepted
    ensures ValidatePassword("GoodPass!") == Accepted
  {
    var good := "GoodPass1!";
    assert IsUppercase(good[0]) && IsLowercase(good[1]) && IsSpecial(good[9]);
    var noDigit := "GoodPass!";
    assert IsUppercase(noDigit[0]) && IsLowercase(noDigit[1]) && IsSpecial(noDigit[8]);
    var lower := "alllowercase1!";
    assert forall i :: 0 <= i < |lower| ==> !IsUppercase(lower[i]);
  }

}
