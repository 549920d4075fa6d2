/** The template's "Add New User" form. It has no visibility check of its
    own and no password-setup field; `registerUser` throws on failure, so
    the form has one error message. */
module TemplateUserManagement {
  import opened Wrappers
  import opened TemplateAuthContext
  import TemplateUsers
  import TemplateSeed

  datatype Form = Form(username: string, email: string, fullName: string, role: string, isActive: bool)

  /** The empty form: an active user with the role "user". */
  const InitialForm := Form("", "", "", "user", true)

  datatype Kind = Success | Error

  datatype Notice = Notice(kind: Kind, text: string)

  datatype Panel = Panel(form: Form, loading: bool, message: Option<Notice>)

  /** The role options of the select. */
  const RoleOptions := ["user", "developer", "manager", "admin"]

  /** The empty form starts at the backend's default role, and every role
      the seeding script gives is on offer. */
  lemma RolesMatchBackend(firstId: int)
    ensures InitialForm.role == TemplateUsers.DefaultRole
    ensures forall i :: 0 <= i < 3 ==> TemplateSeed.DefaultUsers(firstId)[i].role in RoleOptions
  {
  }

  /** The panel while the request is in flight. */
  function Pending(p: Panel): (r: Panel)
    ensures r.loading && r.message.None? && r.form == p.form
  {
    p.(loading := true, message := None)
  }

  /** `handleSubmit` once `registerUser` has returned or thrown: a return
      shows the success message and empties the form; a throw of any kind
      shows the one error message and keeps the form. Loading is off
      either way. */
  function Submit(p: Panel, outcome: Result<(), Failure>): (r: Panel)
    ensures !r.loading && r.message.Some?
    ensures r.message.value.kind == Success <==> outcome.Ok?
    ensures outcome.Ok? ==> r.form == InitialForm && r.message.value.text == "User created successfully!"
    ensures outcome.Err? ==> r.form == p.form && r.message.value.text == "Failed to create user. Please try again."
  {
    var q := Pending(p);
    if outcome.Ok? then q.(message := Some(Notice(Success, "User created successfully!")), form := InitialForm, loading := false)
    else q.(message := Some(Notice(Error, "Failed to create user. Please try again.")), loading := false)
  }

  /** The form passed to `registerUser`. */
  function Data(f: Form): RegisterData {
    RegisterData(f.username, f.email, f.fullName, f.role, f.isActive)
  }

  /** Submitting through the context: the form resets exactly when the
      backend answered OK, and the request carries the form's fields with
      a password still to be set. */
  lemma SubmitThroughContext(st: State, p: Panel, reply: Reply<()>)
    ensures var (_, body, outcome) := RegisterUser(st, Data(p.form), reply);
            && (Submit(p, outcome).form == InitialForm <==> reply.Answered? || p.form == InitialForm)
            && body.username == p.form.username && body.role == p.form.role && body.needsPasswordSetup
  {
  }

  /** What the status select shows for a flag. */
  function StatusLabel(active: bool): string {
    if active then "active" else "inactive"
  }

  /** `value === "active"`: the flag a chosen status sets. */
  function StatusFlag(value: string): (b: bool)
    ensures b <==> value == "active"
  {
    value == "active"
  }

  /** Choosing the status shown leaves the flag as it was, and each label
      sets the flag it shows. */
  lemma StatusRoundTrip(active: bool)
    ensures StatusFlag(StatusLabel(active)) == active
  {
  }

  datatype Edit =
    | Username(s: string)
    | Email(s: string)
    | FullName(s: string)
    | Role(s: string)
    | IsActive(b: bool)

  /** The name of the field an edit changes. */
  function Field(e: Edit): string {
    match e
    case Username(_) => "username"
    case Email(_) => "email"
    case FullName(_) => "full_name"
    case Role(_) => "role"
    case IsActive(_) => "is_active"
  }

  /** `handleInputChange(field, value)`: only the named field changes. */
  function Change(f: Form, e: Edit): (r: Form)
    ensures r.username == (if e.Username? then e.s else f.username)
    ensures r.email == (if e.Email? then e.s else f.email)
    ensures r.fullName == (if e.FullName? then e.s else f.fullName)
    ensures r.role == (if e.Role? then e.s else f.role)
    ensures r.isActive == (if e.IsActive? then e.b else f.isActive)
  {
    match e
    case Username(s) => f.(username := s)
    case Email(s) => f.(email := s)
    case FullName(s) => f.(fullName := s)
    case Role(s) => f.(role := s)
    case IsActive(b) => f.(isActive := b)
  }

  /** Changes to two different fields can be made in either order. */
  lemma ChangesCommute(f: Form, e: Edit, e': Edit)
    requires Field(e) != Field(e')
    ensures Change(Change(f, e), e') == Change(Change(f, e'), e)
  {
  }
}
