/** The sign-in page: its schema, where a signed-in user lands, and the error toast (src/pages/login.tsx). */
module Login {
  import opened Wrappers
  import opened Session
  import opened ApiErrors

  datatype LoginValues = LoginValues(username: string, password: string)

  datatype LoginField = Username | Password

  const InitialValues := LoginValues("", "")

  /** The fields LoginSchema rejects: both are required, and only "" fails `required`. */
  function SchemaErrors(v: LoginValues): (errs: set<LoginField>)
    ensures Username in errs <==> v.username == ""
    ensures Password in errs <==> v.password == ""
    ensures errs == {} <==> v.username != "" && v.password != ""
  {
    (if v.username == "" then {Username} else {}) + (if v.password == "" then {Password} else {})
  }

  /** Where a successful sign-in navigates (with `replace`): the dashboard for an Admin, the asset list for every other role. */
  function LandingPath(r: Role): (p: string)
    ensures p == "/dashboard" <==> r == Admin
    ensures p != "/dashboard" ==> p == "/assets"
  {
    if r == Admin then "/dashboard" else "/assets"
  }

  /** The reply of the store's `login`: the signed-in user, or the request's error. */
  datatype LoginReply = SignedIn(user: User) | Refused(error: ApiError)

  datatype LoginOutcome = Replace(path: string) | ShowError(message: string)

  const NoTokenText := "Authentication failed. Please try again."
  const RefusedText := "Invalid username or password"
  const FailedText := "Login failed"

  /**
   * The end of the submit handler: with a stored token, navigate to the
   * role's landing page; without one, an error toast and no navigation; for a
   * refused login, the toast text chosen by `ErrorMessage`.
   */
  function Resolve(reply: LoginReply, tokenStored: bool): (o: LoginOutcome)
    ensures o.Replace? <==> reply.SignedIn? && tokenStored
    ensures o.Replace? ==> o.path == LandingPath(reply.user.role)
    ensures reply.SignedIn? && !tokenStored ==> o == ShowError(NoTokenText)
    ensures reply.Refused? ==> o == ShowError(ErrorMessage(reply.error, RefusedText, FailedText))
    ensures o.ShowError? ==> o.message != ""
  {
    match reply
    case SignedIn(user) => if tokenStored then Replace(LandingPath(user.role)) else ShowError(NoTokenText)
    case Refused(e) => ShowError(ErrorMessage(e, RefusedText, FailedText))
  }

  /** The page's `isLoading` flag around the awaited sign-in call. */
  class LoginPage {
    var isLoading: bool

    constructor ()
      ensures !isLoading
    {
      isLoading := false;
    }

    /**
     * Submitting the form: Formik runs the handler only when the schema
     * passes, and the handler first sets `isLoading`.
     */
    method StartSubmit(v: LoginValues) returns (sent: bool)
      modifies this
      ensures sent <==> SchemaErrors(v) == {}
      ensures isLoading == (sent || old(isLoading))
    {
      sent := SchemaErrors(v) == {};
      if sent {
        isLoading := true;
      }
    }

    /** The handler after the awaited call: the outcome, and `isLoading` cleared on every path. */
    method FinishSubmit(reply: LoginReply, tokenStored: bool) returns (o: LoginOutcome)
      modifies this
      ensures o == Resolve(reply, tokenStored)
      ensures !isLoading
    {
      o := Resolve(reply, tokenStored);
      isLoading := false;
    }
  }
}
