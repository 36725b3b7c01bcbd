/** The sign-up form of components/auth/RegisterForm.tsx. The submit clears the previous error
    and success, checks that the two passwords agree and that the password is at least 8 long
    (JavaScript `length`: UTF-16 code units), then calls `signUp(email, password, displayName)`
    with the form marked as loading; the answer either shows its error or switches the form to
    the "check your email" screen. The authentication service is outside the model: the call is
    recorded and its answer is a parameter. */
module RegisterForms {
  import opened Wrappers
  import opened JsText

  /** The four inputs. */
  datatype RegisterFields = RegisterFields(displayName: string, email: string, password: string,
                                           confirmPassword: string)

  /** A call of `signUp`. */
  datatype SignUp = SignUp(email: string, password: string, displayName: string)

  /** The form's state: the inputs, the error line (`''` for none), the success flag, the
      loading flag and the `signUp` calls made. */
  datatype RegisterState = RegisterState(fields: RegisterFields, error: string, success: bool,
                                         isLoading: bool, calls: seq<SignUp>)

  /** What `signUp` resolves to: no error, or an error with its message. */
  datatype SignUpAnswer = NoError | AuthError(message: string)

  const PasswordsDiffer: string := "Passwords do not match"
  const PasswordTooShort: string := "Password must be at least 8 characters"
  const MinPasswordLength: nat := 8

  /** The first password check that fails, as its message, the match before the length. */
  function PasswordProblem(password: string, confirmPassword: string): Option<string> {
    if password != confirmPassword then Some(PasswordsDiffer)
    else if Length(password) < MinPasswordLength then Some(PasswordTooShort)
    else None
  }

  /** `handleSubmit` up to the `await`. */
  function Submit(s: RegisterState): RegisterState {
    var cleared := s.(error := "", success := false);
    match PasswordProblem(s.fields.password, s.fields.confirmPassword)
    case Some(message) => cleared.(error := message)
    case None =>
      cleared.(isLoading := true,
               calls := s.calls + [SignUp(s.fields.email, s.fields.password, s.fields.displayName)])
  }

  /** `handleSubmit` after the `await`. */
  function Answered(s: RegisterState, answer: SignUpAnswer): RegisterState {
    match answer
    case AuthError(message) => s.(error := message, isLoading := false)
    case NoError => s.(success := true, isLoading := false)
  }

  /** The password passes exactly when both entries agree and it is at least 8 code units
      long; a mismatch is reported even when the password is also short. */
  lemma PasswordRules(password: string, confirmPassword: string)
    ensures PasswordProblem(password, confirmPassword).None?
        <==> password == confirmPassword && Length(password) >= 8
    ensures password != confirmPassword ==> PasswordProblem(password, confirmPassword) == Some(PasswordsDiffer)
    ensures password == confirmPassword && Length(password) < 8 ==>
              PasswordProblem(password, confirmPassword) == Some(PasswordTooShort)
  {
  }

  /** The length counts UTF-16 code units, not characters: four emoji outside the Basic
      Multilingual Plane make a password of length 8, which is accepted. */
  lemma FourEmojiAreLongEnough()
    ensures Length("\U{1F600}\U{1F600}\U{1F600}\U{1F600}") == 8
    ensures PasswordProblem("\U{1F600}\U{1F600}\U{1F600}\U{1F600}", "\U{1F600}\U{1F600}\U{1F600}\U{1F600}").None?
  {
    var e := "\U{1F600}\U{1F600}\U{1F600}\U{1F600}";
    assert e[1..][1..][1..][1..] == [];
  }

  /** Every submit starts from no error and no success; `signUp` is called, once, with the
      email, password and name typed, exactly when the passwords pass, and only then does the
      form start loading; a failed check shows its message. */
  lemma SubmitChecksFirst(s: RegisterState)
    ensures var s' := Submit(s);
      !s'.success && s'.fields == s.fields && s'.calls[..|s.calls|] == s.calls
      && (|s'.calls| > |s.calls| <==> PasswordProblem(s.fields.password, s.fields.confirmPassword).None?)
      && (|s'.calls| > |s.calls| ==>
            |s'.calls| == |s.calls| + 1
            && s'.calls[|s.calls|] == SignUp(s.fields.email, s.fields.password, s.fields.displayName)
            && s'.isLoading && s'.error == "")
      && (|s'.calls| == |s.calls| ==>
            s'.error == PasswordProblem(s.fields.password, s.fields.confirmPassword).value
            && s'.isLoading == s.isLoading)
  {
  }

  /** Once `signUp` answers the form stops loading: an error shows its message and leaves the
      form up, no error switches to the success screen with no error line. */
  lemma AnswerEndsLoading(s: RegisterState, answer: SignUpAnswer)
    requires PasswordProblem(s.fields.password, s.fields.confirmPassword).None?
    ensures var s' := Answered(Submit(s), answer);
      !s'.isLoading && s'.fields == s.fields
      && (s'.success <==> answer.NoError?)
      && (answer.NoError? ==> s'.error == "")
      && (answer.AuthError? ==> s'.error == answer.message)
  {
  }

  /** The form. */
  class RegisterForm {
    var displayName: string
    var email: string
    var password: string
    var confirmPassword: string
    var error: string
    var success: bool
    var isLoading: bool
    var calls: seq<SignUp>

    function State(): RegisterState
      reads this
    {
      RegisterState(RegisterFields(displayName, email, password, confirmPassword), error, success,
                    isLoading, calls)
    }

    constructor ()
      ensures State() == RegisterState(RegisterFields("", "", "", ""), "", false, false, [])
    {
      displayName, email, password, confirmPassword := "", "", "", "";
      error, success, isLoading := "", false, false;
      calls := [];
    }

    /** Typing into the inputs. */
    method Edit(f: RegisterFields)
      modifies this
      ensures State() == old(State()).(fields := f)
    {
      displayName, email, password, confirmPassword := f.displayName, f.email, f.password, f.confirmPassword;
    }

    /** `handleSubmit` up to the `await`. */
    method HandleSubmit()
      modifies this
      ensures State() == Submit(old(State()))
    {
      error := "";
      success := false;
      if password != confirmPassword {
        error := PasswordsDiffer;
        return;
      }
      if Length(password) < MinPasswordLength {
        error := PasswordTooShort;
        return;
      }
      isLoading := true;
      calls := calls + [SignUp(email, password, displayName)];
    }

    /** `signUp` answers. */
    method SignUpAnswered(answer: SignUpAnswer)
      modifies this
      ensures State() == Answered(old(State()), answer)
    {
      match answer {
        case AuthError(message) =>
          error := message;
          isLoading := false;
        case NoError =>
          success := true;
          isLoading := false;
      }
    }
  }
}
