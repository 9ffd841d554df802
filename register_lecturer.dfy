/** The lecturer sign-up page: two ordered checks on the form, then the
    backend's sign-up and the upsert of the lecturer's profile row. The
    replies of both backend calls arrive as parameters; the handler reports
    which requests it issued. */
module RegisterLecturer {
  import opened JsValues

  /** Why the form was refused before any backend call. */
  datatype ValidationError = PasswordMismatch | MissingFields

  /** What `supabase.auth.signUp` returned: an error with its message, or the
      new user's id (`None` when `authData?.user?.id` is undefined). */
  datatype SignUpReply = SignUpError(message: string) | SignedUp(userId: Option<string>)

  /** The `lecturers` row sent to `upsert`. */
  datatype LecturerRow = LecturerRow(id: string, fullName: string, email: string, phoneNumber: string)

  /** How one press of "Create Account" ended; `Failed` carries the text of
      the error toast. */
  datatype RegistrationOutcome =
    | Rejected(error: ValidationError)
    | Failed(message: string)
    | Registered(row: LecturerRow)

  const DefaultFailure := "Registration failed. Please try again."
  const NoUserIdMessage := "User ID not found after sign-up"

  /** The two checks, in the order the handler makes them: the passwords
      first, then the three text fields (the password itself is not checked). */
  function Validate(fullName: string, email: string, password: string, confirmPassword: string,
                    phoneNumber: string): (r: Option<ValidationError>)
    ensures password != confirmPassword ==> r == Some(PasswordMismatch)
    ensures password == confirmPassword ==>
              (r == Some(MissingFields) <==> fullName == "" || email == "" || phoneNumber == "")
    ensures r == None <==>
              password == confirmPassword && fullName != "" && email != "" && phoneNumber != ""
  {
    if password != confirmPassword then Some(PasswordMismatch)
    else if fullName == "" || email == "" || phoneNumber == "" then Some(MissingFields)
    else None
  }

  /** The id the handler goes on with: a present, non-empty `user.id`. */
  function UserId(reply: SignUpReply): (r: Option<string>)
    ensures r != None ==> r.value != "" && reply == SignedUp(r)
    ensures reply.SignedUp? && reply.userId != None && reply.userId.value != "" ==> r == reply.userId
  {
    if reply.SignedUp? && reply.userId != None && reply.userId.value != "" then reply.userId else None
  }

  /** `error.message || "Registration failed. Please try again."`. */
  function ToastText(message: string): (t: string)
    ensures t != ""
    ensures message != "" ==> t == message
    ensures message == "" ==> t == DefaultFailure
  {
    if message == "" then DefaultFailure else message
  }

  /** What `handleRegister` ends in, given the form and both replies
      (`upsertError` is the upsert's error message, `None` on success). */
  function Attempt(fullName: string, email: string, password: string, confirmPassword: string,
                   phoneNumber: string, reply: SignUpReply, upsertError: Option<string>): RegistrationOutcome
  {
    match Validate(fullName, email, password, confirmPassword, phoneNumber)
    case Some(error) => Rejected(error)
    case None =>
      match reply
      case SignUpError(message) => Failed(ToastText(message))
      case SignedUp(_) =>
        if UserId(reply) == None then Failed(NoUserIdMessage)
        else match upsertError
          case Some(message) => Failed(ToastText(message))
          case None => Registered(LecturerRow(UserId(reply).value, fullName, email, phoneNumber))
  }

  /** A password mismatch is reported whatever the other fields hold, even
      when they are empty too. */
  lemma MismatchReportedFirst(fullName: string, email: string, password: string, confirmPassword: string,
                              phoneNumber: string, reply: SignUpReply, upsertError: Option<string>)
    requires password != confirmPassword
    ensures Attempt(fullName, email, password, confirmPassword, phoneNumber, reply, upsertError)
            == Rejected(PasswordMismatch)
  {
  }

  /** Only an account with a non-empty user id and a stored profile row
      counts as registered, and that row holds the form's values. */
  lemma RegisteredMeansStored(fullName: string, email: string, password: string, confirmPassword: string,
                              phoneNumber: string, reply: SignUpReply, upsertError: Option<string>)
    ensures var r := Attempt(fullName, email, password, confirmPassword, phoneNumber, reply, upsertError);
            r.Registered? <==>
              && Validate(fullName, email, password, confirmPassword, phoneNumber) == None
              && UserId(reply) != None && upsertError == None
    ensures var r := Attempt(fullName, email, password, confirmPassword, phoneNumber, reply, upsertError);
            r.Registered? ==>
              r.row == LecturerRow(UserId(reply).value, fullName, email, phoneNumber) && r.row.id != ""
  {
  }

  /** A valid form fails exactly when a backend step does: the sign-up
      reports an error, yields no usable id, or the upsert reports an error.
      The failure toast is never empty. */
  lemma FailureExplained(fullName: string, email: string, password: string, confirmPassword: string,
                         phoneNumber: string, reply: SignUpReply, upsertError: Option<string>)
    ensures var r := Attempt(fullName, email, password, confirmPassword, phoneNumber, reply, upsertError);
            r.Failed? <==>
              && Validate(fullName, email, password, confirmPassword, phoneNumber) == None
              && (reply.SignUpError? || UserId(reply) == None || upsertError != None)
    ensures var r := Attempt(fullName, email, password, confirmPassword, phoneNumber, reply, upsertError);
            r.Failed? ==> r.message != ""
    ensures var r := Attempt(fullName, email, password, confirmPassword, phoneNumber, reply, upsertError);
            r.Failed? && reply.SignedUp? && UserId(reply) == None ==> r.message == NoUserIdMessage
  {
  }

  /** An empty password with an empty confirmation passes both checks. */
  lemma EmptyPasswordPasses(fullName: string, email: string, phoneNumber: string)
    requires fullName != "" && email != "" && phoneNumber != ""
    ensures Validate(fullName, email, "", "", phoneNumber) == None
  {
  }

  // ---- page state --------------------------------------------------------------

  /** The component's state. `loadingLog` records, in order, every value
      passed to `setIsLoading`. */
  class RegisterLecturerPage {
    var fullName: string
    var email: string
    var password: string
    var confirmPassword: string
    var phoneNumber: string
    var isLoading: bool
    var navigatedTo: Option<string>
    ghost var loadingLog: seq<bool>

    constructor ()
      ensures fullName == "" && email == "" && password == "" && confirmPassword == "" && phoneNumber == ""
      ensures !isLoading && navigatedTo == None && loadingLog == []
    {
      fullName, email, password, confirmPassword, phoneNumber := "", "", "", "", "";
      isLoading, navigatedTo := false, None;
      loadingLog := [];
    }

    method SetIsLoading(value: bool)
      modifies this`isLoading, this`loadingLog
      ensures isLoading == value && loadingLog == old(loadingLog) + [value]
    {
      isLoading := value;
      loadingLog := loadingLog + [value];
    }

    /** `handleRegister`. Returns the outcome together with the two requests
        it issued: the sign-up's `(email, password)` and the upserted row,
        each `None` when that call was not made. */
    method HandleRegister(reply: SignUpReply, upsertError: Option<string>)
      returns (outcome: RegistrationOutcome, signUp: Option<(string, string)>, upsert: Option<LecturerRow>)
      modifies this`isLoading, this`loadingLog, this`navigatedTo
      ensures outcome == Attempt(fullName, email, password, confirmPassword, phoneNumber, reply, upsertError)
      ensures !isLoading && loadingLog == old(loadingLog) + [true, false]
      ensures signUp != None <==> Validate(fullName, email, password, confirmPassword, phoneNumber) == None
      ensures signUp != None ==> signUp.value == (email, password)
      ensures upsert != None <==> signUp != None && UserId(reply) != None
      ensures upsert != None ==> upsert.value == LecturerRow(UserId(reply).value, fullName, email, phoneNumber)
      ensures navigatedTo == if outcome.Registered? then Some("/loginLecturer") else old(navigatedTo)
    {
      signUp, upsert := None, None;
      SetIsLoading(true);
      var invalid := Validate(fullName, email, password, confirmPassword, phoneNumber);
      if invalid != None {
        SetIsLoading(false);
        return Rejected(invalid.value), signUp, upsert;
      }
      signUp := Some((email, password));
      if reply.SignUpError? {
        outcome := Failed(ToastText(reply.message));
      } else if UserId(reply) == None {
        outcome := Failed(NoUserIdMessage);
      } else {
        var row := LecturerRow(UserId(reply).value, fullName, email, phoneNumber);
        upsert := Some(row);
        if upsertError != None {
          outcome := Failed(ToastText(upsertError.value));
        } else {
          navigatedTo := Some("/loginLecturer");
          outcome := Registered(row);
        }
      }
      SetIsLoading(false);
    }
  }
}
