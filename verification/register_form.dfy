/** The sign-up form checks (frontend/src/pages/Register.tsx): `validateForm`, an
    ordered chain whose first failing check sets the error message, and the live
    checklist of requirements shown under the form. Lengths are sequence lengths. */
module RegisterForm {

  datatype Validation = Valid | Invalid(message: string)

  const AllFieldsRequired: string := "All fields are required"
  const PasswordTooShort: string := "Password must be at least 8 characters"
  const PasswordsDiffer: string := "Passwords do not match"
  const UsernameTooShort: string := "Username must be at least 3 characters"

  /** `validateForm`, with its `setError` call returned as the message. */
  function ValidateForm(email: string, username: string, password: string, confirmPassword: string): (v: Validation)
    ensures email == "" || username == "" || password == "" || confirmPassword == "" ==>
              v == Invalid(AllFieldsRequired)
    ensures email != "" && username != "" && password != "" && confirmPassword != "" && |password| < 8 ==>
              v == Invalid(PasswordTooShort)
    ensures (email != "" && username != "" && |password| >= 8 && confirmPassword != "" &&
             password != confirmPassword) ==> v == Invalid(PasswordsDiffer)
    ensures (email != "" && username != "" && |password| >= 8 && password == confirmPassword &&
             |username| < 3) ==> v == Invalid(UsernameTooShort)
    ensures v == Valid <==>
              email != "" && username != "" && password != "" && confirmPassword != "" &&
              |password| >= 8 && password == confirmPassword && |username| >= 3
  {
    if email == "" || username == "" || password == "" || confirmPassword == "" then Invalid(AllFieldsRequired)
    else if |password| < 8 then Invalid(PasswordTooShort)
    else if password != confirmPassword then Invalid(PasswordsDiffer)
    else if |username| < 3 then Invalid(UsernameTooShort)
    else Valid
  }

  datatype Requirement = Requirement(text: string, met: bool)

  /** `passwordRequirements`. */
  function PasswordRequirements(username: string, password: string, confirmPassword: string): (reqs: seq<Requirement>)
    ensures |reqs| == 3
  {
    [ Requirement("At least 8 characters", |password| >= 8),
      Requirement("Passwords match", password == confirmPassword && |password| > 0),
      Requirement("Username at least 3 characters", |username| >= 3) ]
  }

  /** `allRequirementsMet`: `every` over the checklist. */
  predicate AllRequirementsMet(username: string, password: string, confirmPassword: string)
  {
    var reqs := PasswordRequirements(username, password, confirmPassword);
    forall i :: 0 <= i < |reqs| ==> reqs[i].met
  }

  /** The checklist and the validator agree except on the e-mail: the form passes
      exactly when every requirement is met and an e-mail was entered. */
  lemma ValidationMatchesChecklist(email: string, username: string, password: string, confirmPassword: string)
    ensures ValidateForm(email, username, password, confirmPassword) == Valid <==>
              AllRequirementsMet(username, password, confirmPassword) && email != ""
  {
    var reqs := PasswordRequirements(username, password, confirmPassword);
    if AllRequirementsMet(username, password, confirmPassword) {
      assert reqs[0].met && reqs[1].met && reqs[2].met;
    }
    if ValidateForm(email, username, password, confirmPassword) == Valid {
      assert forall i :: 0 <= i < |reqs| ==> reqs[i].met;
    }
  }

  /** In particular a valid form meets every requirement, but the checklist can be
      complete while the form is still rejected for a missing e-mail. */
  lemma ChecklistIgnoresEmail()
    ensures AllRequirementsMet("abc", "password", "password")
    ensures ValidateForm("", "abc", "password", "password") == Invalid(AllFieldsRequired)
  {
    ValidationMatchesChecklist("x", "abc", "password", "password");
  }
}
