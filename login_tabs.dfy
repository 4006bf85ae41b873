/**
 * The submit logic of the two login forms in src/components/LoginTabs.tsx.
 * The employee and admin handlers are the same code over their own form and
 * error slot and a different user-type tag; both share one isLoading flag.
 *
 * A handler runs in two parts split at the await of the sign-in request:
 * BeginSubmit (clear the error, raise isLoading, validate, build the
 * request) and FinishSubmit (classify the backend's answer, navigate, call
 * onLogin, lower isLoading).  The backend's answer and the onLogin callback
 * are inputs; navigation and the onLogin call are returned as values.
 */
module Login {
  import opened Wrappers
  import opened Auth

  datatype Tab = EmployeeTab | AdminTab {
    function Other(): Tab {
      if EmployeeTab? then AdminTab else EmployeeTab
    }

    /** The userType argument passed to onLogin. */
    function UserType(): string {
      if EmployeeTab? then "employee" else "admin"
    }
  }

  datatype LoginFormData = LoginFormData(employeeId: string, password: string)

  /** The arguments of signInWithPassword. */
  datatype Credentials = Credentials(email: string, password: string)

  /** How signInWithPassword ended. */
  datatype SignInOutcome =
    | BackendError          // the call returned an error
    | SignedIn(user: User)  // no error and data.user is set
    | NoUser                // no error and data.user is null
    | Threw                 // the awaited call threw

  /** The optional onLogin prop; when present its promise may reject. */
  datatype Callback = NoCallback | Callback(rejects: bool)

  /** A call of onLogin: the submitted form and the user-type tag. */
  datatype LoginCall = LoginCall(form: LoginFormData, userType: string)

  const EmailDomain: string := "@company.com"
  const FillAllFields: string := "Please fill in all fields"
  const InvalidCredentials: string := "Invalid credentials. Please try again."
  const UnexpectedError: string := "An unexpected error occurred. Please try again."
  const DashboardPath: string := "/dashboard"

  /** Both fields are non-empty (`!form.employeeId || !form.password` fails). */
  predicate Filled(form: LoginFormData) {
    form.employeeId != "" && form.password != ""
  }

  /** The sign-in identifier built from an Employee ID. */
  function EmailFor(employeeId: string): (email: string)
    ensures |email| == |employeeId| + |EmailDomain|
    ensures email[..|employeeId|] == employeeId && email[|employeeId|..] == EmailDomain
  {
    employeeId + EmailDomain
  }

  /** The Employee ID an identifier was built from, if it was built by EmailFor. */
  function EmployeeIdOf(email: string): (id: Option<string>)
    ensures id.Some? ==> EmailFor(id.value) == email
  {
    if |email| >= |EmailDomain| && email[|email| - |EmailDomain|..] == EmailDomain
    then Some(email[..|email| - |EmailDomain|])
    else None
  }

  /** The mapping from Employee ID to identifier is invertible. */
  lemma EmailRoundTrip(employeeId: string)
    ensures EmployeeIdOf(EmailFor(employeeId)) == Some(employeeId)
  {
  }

  /** Distinct Employee IDs sign in as distinct identifiers. */
  lemma EmailForInjective(a: string, b: string)
    requires EmailFor(a) == EmailFor(b)
    ensures a == b
  {
  }

  /** The sign-in request a submit makes, or None when validation stops it. */
  function RequestFor(form: LoginFormData): (r: Option<Credentials>)
    ensures r.Some? <==> Filled(form)
    ensures r.Some? ==> r.value.email == EmailFor(form.employeeId) && r.value.password == form.password
  {
    if Filled(form) then Some(Credentials(EmailFor(form.employeeId), form.password)) else None
  }

  /** What the part after the await does: the error it writes (if any), where it navigates, whom it calls. */
  datatype Completion = Completion(error: Option<string>, navigate: Option<string>, onLogin: Option<LoginCall>)

  function Complete(tab: Tab, form: LoginFormData, outcome: SignInOutcome, callback: Callback): (c: Completion)
    ensures c.navigate.Some? <==> outcome.SignedIn?
    ensures c.navigate.Some? ==> c.navigate.value == DashboardPath
    ensures c.onLogin.Some? <==> (outcome.SignedIn? || outcome.NoUser?) && callback.Callback?
    ensures c.onLogin.Some? ==> c.onLogin.value == LoginCall(form, tab.UserType())
    ensures outcome.BackendError? ==> c.error == Some(InvalidCredentials)
    ensures outcome.Threw? ==> c.error == Some(UnexpectedError)
    ensures c.error.None? <==> (outcome.SignedIn? || outcome.NoUser?) && !(callback.Callback? && callback.rejects)
    ensures c.error.Some? && !outcome.BackendError? ==> c.error == Some(UnexpectedError)
  {
    match outcome
    case BackendError => Completion(Some(InvalidCredentials), None, None)
    case Threw => Completion(Some(UnexpectedError), None, None)
    case _ =>
      var navigate := if outcome.SignedIn? then Some(DashboardPath) else None;
      match callback
      case NoCallback => Completion(None, navigate, None)
      case Callback(rejects) =>
        Completion(if rejects then Some(UnexpectedError) else None, navigate, Some(LoginCall(form, tab.UserType())))
  }

  /** The whole effect of one submit of a form: the error shown at the end, the request, navigation and onLogin call. */
  datatype Submission = Submission(error: string, request: Option<Credentials>, navigate: Option<string>, onLogin: Option<LoginCall>)

  function Submit(tab: Tab, form: LoginFormData, outcome: SignInOutcome, callback: Callback): (r: Submission)
    ensures r.request == RequestFor(form)
    ensures !Filled(form) ==> r.error == FillAllFields && r.navigate.None? && r.onLogin.None?
    ensures r.navigate.Some? <==> Filled(form) && outcome.SignedIn?
    ensures r.navigate.Some? ==> r.navigate.value == DashboardPath
    ensures r.onLogin.Some? <==> Filled(form) && !outcome.BackendError? && !outcome.Threw? && callback.Callback?
    ensures r.onLogin.Some? ==> r.onLogin.value == LoginCall(form, tab.UserType())
    ensures Filled(form) && outcome.BackendError? ==> r.error == InvalidCredentials
    ensures Filled(form) && outcome.Threw? ==> r.error == UnexpectedError
    ensures r.error == "" <==> Filled(form) && (outcome.SignedIn? || outcome.NoUser?) && !(callback.Callback? && callback.rejects)
  {
    if !Filled(form) then Submission(FillAllFields, None, None, None)
    else
      var c := Complete(tab, form, outcome, callback);
      Submission(match c.error case None => "" case Some(e) => e, RequestFor(form), c.navigate, c.onLogin)
  }

  class LoginTabs {
    var employeeForm: LoginFormData
    var adminForm: LoginFormData
    var employeeError: string
    var adminError: string
    var isLoading: bool

    function Form(tab: Tab): LoginFormData
      reads this
    {
      if tab.EmployeeTab? then employeeForm else adminForm
    }

    function Error(tab: Tab): string
      reads this
    {
      if tab.EmployeeTab? then employeeError else adminError
    }

    /** Both forms empty, no errors, not loading. */
    constructor ()
      ensures Form(EmployeeTab) == LoginFormData("", "") && Form(AdminTab) == LoginFormData("", "")
      ensures Error(EmployeeTab) == "" && Error(AdminTab) == "" && !isLoading
    {
      employeeForm := LoginFormData("", "");
      adminForm := LoginFormData("", "");
      employeeError, adminError := "", "";
      isLoading := false;
    }

    /** The Employee ID input's onChange: replaces that field of this tab's form only. */
    method SetEmployeeId(tab: Tab, value: string)
      modifies this`employeeForm, this`adminForm
      ensures Form(tab) == old(Form(tab)).(employeeId := value)
      ensures Form(tab.Other()) == old(Form(tab.Other()))
    {
      if tab.EmployeeTab? {
        employeeForm := employeeForm.(employeeId := value);
      } else {
        adminForm := adminForm.(employeeId := value);
      }
    }

    /** The password input's onChange: replaces that field of this tab's form only. */
    method SetPassword(tab: Tab, value: string)
      modifies this`employeeForm, this`adminForm
      ensures Form(tab) == old(Form(tab)).(password := value)
      ensures Form(tab.Other()) == old(Form(tab.Other()))
    {
      if tab.EmployeeTab? {
        employeeForm := employeeForm.(password := value);
      } else {
        adminForm := adminForm.(password := value);
      }
    }

    method SetError(tab: Tab, message: string)
      modifies this`employeeError, this`adminError
      ensures Error(tab) == message && Error(tab.Other()) == old(Error(tab.Other()))
    {
      if tab.EmployeeTab? {
        employeeError := message;
      } else {
        adminError := message;
      }
    }

    /**
     * The handler up to the await: the error is cleared and isLoading raised;
     * a form with an empty field gets the fill-in error and isLoading is
     * lowered again by the finally block; otherwise the request is returned
     * and isLoading stays up while it is in flight.
     */
    method BeginSubmit(tab: Tab) returns (request: Option<Credentials>)
      modifies this`employeeError, this`adminError, this`isLoading
      ensures request == RequestFor(Form(tab))
      ensures Error(tab) == (if request.None? then FillAllFields else "")
      ensures isLoading <==> request.Some?
      ensures Error(tab.Other()) == old(Error(tab.Other()))
    {
      SetError(tab, "");
      isLoading := true;
      var form := Form(tab);
      if form.employeeId == "" || form.password == "" {
        SetError(tab, FillAllFields);
        isLoading := false;
        return None;
      }
      request := Some(Credentials(form.employeeId + EmailDomain, form.password));
    }

    /**
     * The handler after the await, for the form as it was when submitted:
     * writes the error of a failed path, lowers isLoading in the finally
     * block, and returns the navigation and the onLogin call it made.
     */
    method FinishSubmit(tab: Tab, submitted: LoginFormData, outcome: SignInOutcome, callback: Callback)
      returns (navigate: Option<string>, onLogin: Option<LoginCall>)
      modifies this`employeeError, this`adminError, this`isLoading
      ensures var c := Complete(tab, submitted, outcome, callback);
        navigate == c.navigate && onLogin == c.onLogin &&
        Error(tab) == (match c.error case None => old(Error(tab)) case Some(e) => e)
      ensures !isLoading
      ensures Error(tab.Other()) == old(Error(tab.Other()))
    {
      navigate, onLogin := None, None;
      if outcome.Threw? {
        SetError(tab, UnexpectedError);
      } else if outcome.BackendError? {
        SetError(tab, InvalidCredentials);
      } else {
        if outcome.SignedIn? {
          navigate := Some(DashboardPath);
        }
        if callback.Callback? {
          onLogin := Some(LoginCall(submitted, tab.UserType()));
          if callback.rejects {
            SetError(tab, UnexpectedError);
          }
        }
      }
      isLoading := false;
    }

    /** One whole submit of a tab's form, the backend answering with outcome. */
    method HandleSubmit(tab: Tab, outcome: SignInOutcome, callback: Callback) returns (s: Submission)
      modifies this`employeeError, this`adminError, this`isLoading
      ensures s == Submit(tab, old(Form(tab)), outcome, callback)
      ensures Error(tab) == s.error && !isLoading
      ensures Error(tab.Other()) == old(Error(tab.Other()))
    {
      var form := Form(tab);
      var request := BeginSubmit(tab);
      if request.None? {
        s := Submission(FillAllFields, None, None, None);
        return;
      }
      var navigate, onLogin := FinishSubmit(tab, form, outcome, callback);
      s := Submission(Error(tab), request, navigate, onLogin);
    }
  }
}
