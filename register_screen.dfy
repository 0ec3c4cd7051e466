/**
 * `handleRegister` of screens/RegisterScreen.tsx: the sign-up form's checks, run in order
 * and reporting only the first that fails, then the `register` mutation. The error object
 * is a map from field name to message; a field set to `undefined` is absent.
 */
module RegisterScreen {
  import opened Wrappers
  import opened Http
  import opened Text
  import opened Api
  import opened AuthService
  import opened UseAuth

  datatype RegisterForm = RegisterForm(name: string, email: string, phone: string, password: string, confirmPassword: string)

  const GeneralFallback := "Registration failed. Please try again."

  /** `/^\+?[1-9]\d{1,14}$/`: an optional `+`, a digit 1-9, then 1 to 14 more digits. */
  predicate RegisterPhonePattern(p: string) {
    var digits := if |p| > 0 && p[0] == '+' then p[1..] else p;
    2 <= |digits| <= 15 && AllDigits(digits) && digits[0] != '0'
  }

  predicate RequiredPresent(f: RegisterForm) {
    f.name != "" && f.email != "" && f.password != "" && f.confirmPassword != ""
  }

  predicate PasswordsMatch(f: RegisterForm) {
    f.password == f.confirmPassword
  }

  predicate PasswordLongEnough(f: RegisterForm) {
    |f.password| >= 6
  }

  /** The phone is optional; one that is given must fit the pattern. */
  predicate PhoneAcceptable(f: RegisterForm) {
    f.phone == "" || RegisterPhonePattern(f.phone)
  }

  /** One message per empty required field (phone is not required). */
  function RequiredErrors(f: RegisterForm): (m: map<string, string>)
    ensures "name" in m <==> f.name == ""
    ensures "email" in m <==> f.email == ""
    ensures "password" in m <==> f.password == ""
    ensures "confirmPassword" in m <==> f.confirmPassword == ""
    ensures m.Keys <= {"name", "email", "password", "confirmPassword"}
  {
    var m0: map<string, string> := map[];
    var m1 := if f.name == "" then m0["name" := "Name is required"] else m0;
    var m2 := if f.email == "" then m1["email" := "Email is required"] else m1;
    var m3 := if f.password == "" then m2["password" := "Password is required"] else m2;
    if f.confirmPassword == "" then m3["confirmPassword" := "Confirm password is required"] else m3
  }

  /** The errors a submit ends with before `register` is called; empty when every check passes. */
  function RegisterErrors(f: RegisterForm): (m: map<string, string>)
    ensures m == map[] <==> RequiredPresent(f) && PasswordsMatch(f) && PasswordLongEnough(f) && PhoneAcceptable(f)
    ensures !RequiredPresent(f) ==> m == RequiredErrors(f)
    ensures RequiredPresent(f) && !PasswordsMatch(f) ==> m == map["confirmPassword" := "Passwords do not match"]
    ensures RequiredPresent(f) && PasswordsMatch(f) && !PasswordLongEnough(f) ==>
      m == map["password" := "Password must be at least 6 characters"]
    ensures RequiredPresent(f) && PasswordsMatch(f) && PasswordLongEnough(f) && !PhoneAcceptable(f) ==>
      m == map["phone" := "Invalid phone number format"]
  {
    if !RequiredPresent(f) then RequiredErrors(f)
    else if !PasswordsMatch(f) then
      var m := map["confirmPassword" := "Passwords do not match"];
      assert "confirmPassword" in m;
      m
    else if !PasswordLongEnough(f) then
      var m := map["password" := "Password must be at least 6 characters"];
      assert "password" in m;
      m
    else if !PhoneAcceptable(f) then
      var m := map["phone" := "Invalid phone number format"];
      assert "phone" in m;
      m
    else map[]
  }

  /** At most one check is reported once every required field is filled. */
  lemma OnlyFirstFailureReported(f: RegisterForm)
    requires RequiredPresent(f)
    ensures |RegisterErrors(f)| <= 1
  {
  }

  /** Two short passwords that differ are reported as a mismatch, not as too short. */
  lemma MismatchBeforeLength(f: RegisterForm)
    requires RequiredPresent(f) && f.password != f.confirmPassword
    ensures RegisterErrors(f) == map["confirmPassword" := "Passwords do not match"]
  {
  }

  /** The emptiness checks do not trim: a name of blanks passes them. */
  lemma BlankNameIsPresent(f: RegisterForm)
    requires f.name != "" && Blank(f.name)
    ensures "name" !in RegisterErrors(f)
  {
  }

  class RegisterScreenState {
    var errors: map<string, string>

    constructor ()
      ensures errors == map[]
    {
      errors := map[];
    }

    /** `handleRegister`: reset the errors, run the checks, and call `register` only if all pass. */
    method HandleRegister(f: RegisterForm, session: AuthSession) returns (called: bool)
      modifies this, session.auth.api.store, session.auth.api.transport
      ensures called <==> RegisterErrors(f) == map[]
      ensures !called ==> errors == RegisterErrors(f) && session.auth.api.State() == old(session.auth.api.State())
      ensures called ==>
        var run := SignUp(old(session.auth.api.State()), RegisterCredentials(f.name, f.email, f.phone, f.password), session.auth.api.baseUrl);
        && session.auth.api.State() == run.world
        && errors == (if run.result.Failure? then map["general" := ServerMessage(run.result.error, GeneralFallback)] else map[])
    {
      errors := map[];
      var problems := RegisterErrors(f);
      if problems != map[] {
        errors := problems;
        called := false;
        return;
      }
      called := true;
      var r := session.Register(RegisterCredentials(f.name, f.email, f.phone, f.password));
      if r.Failure? {
        errors := map["general" := ServerMessage(r.error, GeneralFallback)];
      }
    }
  }
}
