/** The request bodies of the account endpoints and their field constraints.
    A body that breaks a constraint is refused by pydantic before any handler
    runs (FastAPI answers 422). Email syntax (EmailStr) is not checked here. */
module UserSchema {
  import opened Wrappers
  import opened Strings

  const MinPasswordLength: nat := 6
  const CodeLength: nat := 6
  /** FastAPI's status for a body that fails validation. */
  const Unprocessable: int := 422

  datatype UserRegister = UserRegister(
    email: string,
    fullName: string,
    password: string,
    role: string,
    phone: Option<string>,
    location: Option<string>,
    education: Option<string>,
    achievements: Option<string>,
    licenseId: Option<string>,
    specialization: Option<string>,
    yearsOfExperience: Option<int>,
    bio: Option<string>)

  datatype PasswordReset = PasswordReset(email: string, code: string, newPassword: string)

  datatype PasswordChange = PasswordChange(oldPassword: string, newPassword: string)

  /** `pattern="^(user|lawyer)$"`: the whole string is one of the two roles. */
  predicate RolePattern(role: string) {
    role == "user" || role == "lawyer"
  }

  /** UserRegister: password of at least six characters and a role of
      exactly "user" or "lawyer". */
  function ValidateUserRegister(body: UserRegister): (r: Result<UserRegister, Failure>)
    ensures r.Ok? <==> |body.password| >= MinPasswordLength && RolePattern(body.role)
    ensures r.Ok? ==> r.value == body
    ensures r.Err? ==> r.error == Http(Unprocessable)
  {
    if |body.password| >= MinPasswordLength && RolePattern(body.role) then Ok(body)
    else Err(Http(Unprocessable))
  }

  /** validate_code: the value itself when every character is a digit, else
      a ValueError. str.isdigit() is False on the empty string. */
  function ValidateCode(v: string): (r: Result<string, Failure>)
    ensures r.Ok? <==> v != [] && IsDigits(v)
    ensures r.Ok? ==> r.value == v
    ensures r.Err? ==> r.error == ValueError
  {
    if v != [] && IsDigits(v) then Ok(v) else Err(ValueError)
  }

  /** PasswordReset: a code of exactly six characters, all digits, and a new
      password of at least six characters. */
  function ValidatePasswordReset(body: PasswordReset): (r: Result<PasswordReset, Failure>)
    ensures r.Ok? <==> |body.code| == CodeLength && IsDigits(body.code) && |body.newPassword| >= MinPasswordLength
    ensures r.Ok? ==> r.value == body
    ensures r.Err? ==> r.error == Http(Unprocessable)
  {
    if |body.code| < CodeLength || |body.code| > CodeLength || |body.newPassword| < MinPasswordLength then
      Err(Http(Unprocessable))
    else match ValidateCode(body.code)
      case Err(_) => Err(Http(Unprocessable))
      case Ok(_) => Ok(body)
  }

  /** PasswordChange: a new password of at least six characters; the old one
      is not constrained. */
  function ValidatePasswordChange(body: PasswordChange): (r: Result<PasswordChange, Failure>)
    ensures r.Ok? <==> |body.newPassword| >= MinPasswordLength
    ensures r.Ok? ==> r.value == body
    ensures r.Err? ==> r.error == Http(Unprocessable)
  {
    if |body.newPassword| >= MinPasswordLength then Ok(body) else Err(Http(Unprocessable))
  }

  /** A reset code that passes validation reads as a number below 10^6. */
  lemma ValidCodeIsSixDigitNumber(body: PasswordReset)
    requires ValidatePasswordReset(body).Ok?
    ensures PyIntOfString(body.code) == Some(DigitsValue(body.code) as int)
    ensures DigitsValue(body.code) < 1000000
  {
    PyIntOfDigits(body.code);
    DigitsValueBound(body.code);
  }

  lemma {:induction false} DigitsValueBound(s: string)
    requires forall k :: 0 <= k < |s| ==> IsDigit(s[k])
    ensures DigitsValue(s) < Pow10(|s|)
  {
    if s != [] {
      DigitsValueBound(s[..|s| - 1]);
    }
  }

  function Pow10(n: nat): nat {
    if n == 0 then 1 else 10 * Pow10(n - 1)
  }
}
