/** The dashboard's "Add New User" panel: shown only to admins and
    developers, offering the Admin role only to admins, and driving the
    context's `registerUser` from a form that resets after a success. */
module UserManagement {
  import opened Wrappers
  import opened AuthContext
  import DashboardPage

  datatype Form = Form(
    username: string,
    email: string,
    fullName: string,
    role: string,
    isActive: bool,
    needsPasswordSetup: bool)

  /** The empty form: a viewer, active, to set a password at first login. */
  const InitialForm := Form("", "", "", "viewer", true, true)

  datatype Kind = Success | Error

  datatype Notice = Notice(kind: Kind, text: string)

  datatype Panel = Panel(form: Form, loading: bool, message: Option<Notice>)

  const InitialPanel := Panel(InitialForm, false, None)

  /** The component renders only for a signed-in admin or developer. */
  predicate Visible(user: Option<User>) {
    user.Some? && (user.value.role == "admin" || user.value.role == "developer")
  }

  /** The panel appears for the same users as the page's "Manage Users"
      button that opens it. */
  lemma VisibleWhereButtonShown(user: Option<User>)
    ensures Visible(user) <==> DashboardPage.ShowsManageUsers(if user.Some? then Some(user.value.role) else None)
  {
  }

  /** The role options: Viewer and Developer, and Admin for an admin. */
  function RoleOptions(user: User): (r: seq<string>)
    ensures "viewer" in r && "developer" in r
    ensures "admin" in r <==> user.role == "admin"
    ensures forall i :: 0 <= i < |r| ==> r[i] in {"viewer", "developer", "admin"}
  {
    ["viewer", "developer"] + (if user.role == "admin" then ["admin"] else [])
  }

  /** The data handed to `registerUser`: every field of the form. */
  function Data(f: Form): RegisterUserData {
    RegisterUserData(f.username, Some(f.email), f.fullName, f.role, Some(f.isActive), Some(f.needsPasswordSetup))
  }

  /** The panel while the request is in flight: loading, no message. */
  function Pending(p: Panel): (r: Panel)
    ensures r.loading && r.message.None? && r.form == p.form
  {
    p.(loading := true, message := None)
  }

  /** How `await registerUser(formData)` came back: with its answer, or by
      throwing. */
  datatype Outcome = Returned(success: bool) | Raised

  /** `handleSubmit` once the request is over. A success shows a message
      and empties the form; a false answer and a throw show two different
      errors and keep the form. Loading is off in every case. */
  function Submit(p: Panel, outcome: Outcome): (r: Panel)
    ensures !r.loading && r.message.Some?
    ensures r.message.value.kind == Success <==> outcome == Returned(true)
    ensures outcome == Returned(true) ==> r.form == InitialForm && r.message.value.text == "User created successfully!"
    ensures outcome == Returned(false) ==> r.form == p.form && r.message.value.text == "Failed to create user. Please try again."
    ensures outcome == Raised ==> r.form == p.form && r.message.value.text == "An error occurred. Please try again."
  {
    var q := Pending(p);
    match outcome
    case Returned(true) => q.(message := Some(Notice(Success, "User created successfully!")), form := InitialForm, loading := false)
    case Returned(false) => q.(message := Some(Notice(Error, "Failed to create user. Please try again.")), loading := false)
    case Raised => q.(message := Some(Notice(Error, "An error occurred. Please try again.")), loading := false)
  }

  /** Submitting through the dashboard's context, which catches its own
      errors: the "An error occurred" message never shows, and without a
      token the form stays as it is with the failure message. */
  lemma SubmitThroughContext(st: State, p: Panel, reply: Reply<()>)
    ensures var r := Submit(p, Returned(RegisterUser(st, Data(p.form), reply).1));
            && r.message.value.text != "An error occurred. Please try again."
            && (st.token.None? ==> r.form == p.form && r.message.value.kind == Error)
  {
  }

  /** The request built from the panel's form carries its fields, with the
      form's email left out when it is empty, and always asks for a
      password to be set. */
  lemma SubmittedPayload(st: State, p: Panel, reply: Reply<()>)
    requires st.token.Some? && st.token.value != ""
    ensures var sent := RegisterUser(st, Data(p.form), reply).0;
            && sent.Some?
            && sent.value.username == p.form.username && sent.value.role == p.form.role
            && sent.value.isActive == p.form.isActive && sent.value.needsPasswordSetup
            && (sent.value.email.None? <==> p.form.email == "")
  {
  }

  /** A field and its new value, as `handleInputChange` receives them. */
  datatype Edit =
    | Username(s: string)
    | Email(s: string)
    | FullName(s: string)
    | Role(s: string)
    | IsActive(b: bool)
    | NeedsPasswordSetup(b: bool)

  /** The name of the field an edit changes. */
  function Field(e: Edit): string {
    match e
    case Username(_) => "username"
    case Email(_) => "email"
    case FullName(_) => "full_name"
    case Role(_) => "role"
    case IsActive(_) => "is_active"
    case NeedsPasswordSetup(_) => "needs_password_setup"
  }

  /** `handleInputChange(field, value)`: the named field takes the value;
      the others keep theirs. */
  function Change(f: Form, e: Edit): (r: Form)
    ensures r.username == (if e.Username? then e.s else f.username)
    ensures r.email == (if e.Email? then e.s else f.email)
    ensures r.fullName == (if e.FullName? then e.s else f.fullName)
    ensures r.role == (if e.Role? then e.s else f.role)
    ensures r.isActive == (if e.IsActive? then e.b else f.isActive)
    ensures r.needsPasswordSetup == (if e.NeedsPasswordSetup? then e.b else f.needsPasswordSetup)
  {
    match e
    case Username(s) => f.(username := s)
    case Email(s) => f.(email := s)
    case FullName(s) => f.(fullName := s)
    case Role(s) => f.(role := s)
    case IsActive(b) => f.(isActive := b)
    case NeedsPasswordSetup(b) => f.(needsPasswordSetup := b)
  }

  /** Changes to two different fields can be made in either order. */
  lemma ChangesCommute(f: Form, e: Edit, e': Edit)
    requires Field(e) != Field(e')
    ensures Change(Change(f, e), e') == Change(Change(f, e'), e)
  {
  }
}
