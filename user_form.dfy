/**
 * The user-creation form: its hand-written validation, which builds a map
 * from field to message, and the change and submit handlers
 * (src/components/users/UserForm.tsx).
 */
module UserForm {
  import opened Wrappers
  import opened Text

  datatype Field = Username | Password | Email | FullName | RoleField | AssignedBase

  /** The form's record; `role` is the select's value, a role string. */
  datatype FormData = FormData(
    username: string, password: string, email: string,
    fullName: string, role: string, assignedBase: string)

  const InitialData := FormData("", "", "", "", "LogisticsOfficer", "")

  const UsernameRequired := "Username is required"
  const UsernameTooShort := "Username must be at least 3 characters"
  const PasswordRequired := "Password is required"
  const PasswordTooShort := "Password must be at least 6 characters"
  const EmailRequired := "Email is required"
  const EmailInvalid := "Email is invalid"
  const FullNameRequired := "Full name is required"
  const AssignedBaseRequired := "Assigned base is required for this role"

  /** The value of one field. */
  function Get(d: FormData, f: Field): string {
    match f
    case Username => d.username
    case Password => d.password
    case Email => d.email
    case FullName => d.fullName
    case RoleField => d.role
    case AssignedBase => d.assignedBase
  }

  /** `{ ...prev, [name]: value }`. */
  function With(d: FormData, f: Field, value: string): (r: FormData)
    ensures forall g :: Get(r, g) == if g == f then value else Get(d, g)
  {
    match f
    case Username => d.(username := value)
    case Password => d.(password := value)
    case Email => d.(email := value)
    case FullName => d.(fullName := value)
    case RoleField => d.(role := value)
    case AssignedBase => d.(assignedBase := value)
  }

  /**
   * `/\S+@\S+\.\S+/.test(s)` matched with '@' at `at` and the '.' at `dot`:
   * a non-space character before the '@', only non-space characters from the
   * '@' to the '.', at least one of them, and a non-space character after
   * the '.'.
   */
  predicate EmailMatchAt(s: string, at: int, dot: int) {
    0 < at && at + 1 < dot && dot + 1 < |s|
    && s[at] == '@' && s[dot] == '.' && !IsSpace(s[at - 1]) && !IsSpace(s[dot + 1])
    && forall k :: at < k < dot ==> !IsSpace(s[k])
  }

  /** The e-mail pattern matches somewhere in `s` (the pattern is not anchored). */
  predicate EmailShaped(s: string) {
    exists at, dot | 0 < at < |s| && 0 < dot < |s| :: EmailMatchAt(s, at, dot)
  }

  /**
   * A username is required, then at least 3 characters long. The test
   * `!username.trim()` is written AllSpace(u): by Text.BlankIffAllSpace the
   * two agree (UsernameAccepted states the rule with Trim itself).
   */
  function UsernameRule(u: string): (e: Option<string>)
    ensures e.Some? ==> e.value != ""
  {
    if AllSpace(u) then Some(UsernameRequired)
    else if |u| < 3 then Some(UsernameTooShort)
    else None
  }

  /** A password is required, then at least 6 characters long. */
  function PasswordRule(p: string): (e: Option<string>)
    ensures e.Some? ==> e.value != ""
  {
    if AllSpace(p) then Some(PasswordRequired)
    else if |p| < 6 then Some(PasswordTooShort)
    else None
  }

  /** An e-mail address is required, then must match the pattern. */
  function EmailRule(m: string): (e: Option<string>)
    ensures e.Some? ==> e.value != ""
  {
    if AllSpace(m) then Some(EmailRequired)
    else if !EmailShaped(m) then Some(EmailInvalid)
    else None
  }

  function FullNameRule(n: string): (e: Option<string>)
    ensures e.Some? ==> e.value != ""
  {
    if AllSpace(n) then Some(FullNameRequired) else None
  }

  function AssignedBaseRule(role: string, base: string): (e: Option<string>)
    ensures e.Some? ==> e.value != ""
  {
    if role != "Admin" && base == "" then Some(AssignedBaseRequired) else None
  }

  /** The message validateForm records for one field, if any. */
  function Rule(d: FormData, f: Field): (e: Option<string>)
    ensures e.Some? ==> e.value != ""
  {
    match f
    case Username => UsernameRule(d.username)
    case Password => PasswordRule(d.password)
    case Email => EmailRule(d.email)
    case FullName => FullNameRule(d.fullName)
    case RoleField => None
    case AssignedBase => AssignedBaseRule(d.role, d.assignedBase)
  }

  /** Records the message `e`, if any, for `f`. */
  function Put(m: map<Field, string>, f: Field, e: Option<string>): map<Field, string> {
    if e.Some? then m[f := e.value] else m
  }

  const AllFields: set<Field> := {Username, Password, Email, FullName, RoleField, AssignedBase}

  /** The error map for `d`: one message for each field whose rule fails. */
  function FormErrors(d: FormData): (errs: map<Field, string>)
    ensures forall f :: f in errs <==> Rule(d, f).Some?
    ensures forall f :: f in errs ==> errs[f] == Rule(d, f).value && errs[f] != ""
  {
    map f | f in AllFields && Rule(d, f).Some? :: Rule(d, f).value
  }

  /** The chain of five recordings, one per checked field, in the order validateForm runs them. */
  function Chain(u: Option<string>, p: Option<string>, e: Option<string>, n: Option<string>, a: Option<string>): map<Field, string> {
    Put(Put(Put(Put(Put(map[], Username, u), Password, p), Email, e), FullName, n), AssignedBase, a)
  }

  /** Each field of the chain holds exactly its own recording. */
  lemma ChainAt(u: Option<string>, p: Option<string>, e: Option<string>, n: Option<string>, a: Option<string>, f: Field)
    ensures var o := match f
      case Username => u case Password => p case Email => e
      case FullName => n case RoleField => None case AssignedBase => a;
      (f in Chain(u, p, e, n, a) <==> o.Some?) && (f in Chain(u, p, e, n, a) ==> Chain(u, p, e, n, a)[f] == o.value)
  {
  }

  /** FormErrors is what recording each field's message in turn, starting from no errors, produces. */
  lemma FormErrorsInOrder(d: FormData)
    ensures FormErrors(d) == Chain(UsernameRule(d.username), PasswordRule(d.password),
      EmailRule(d.email), FullNameRule(d.fullName), AssignedBaseRule(d.role, d.assignedBase))
  {
    var chain := Chain(UsernameRule(d.username), PasswordRule(d.password),
      EmailRule(d.email), FullNameRule(d.fullName), AssignedBaseRule(d.role, d.assignedBase));
    var errs := FormErrors(d);
    forall f
      ensures (f in chain <==> f in errs) && (f in chain ==> chain[f] == errs[f])
    {
      ChainAt(UsernameRule(d.username), PasswordRule(d.password),
        EmailRule(d.email), FullNameRule(d.fullName), AssignedBaseRule(d.role, d.assignedBase), f);
    }
    assert errs.Keys == chain.Keys;
  }

  /** The username passes when it has a non-space character and at least 3 characters (counted before trimming). */
  lemma UsernameAccepted(d: FormData)
    ensures Username !in FormErrors(d) <==> Trim(d.username) != "" && |d.username| >= 3
  {
    BlankIffAllSpace(d.username);
  }

  /** The password passes when it has a non-space character and at least 6 characters (counted before trimming). */
  lemma PasswordAccepted(d: FormData)
    ensures Password !in FormErrors(d) <==> Trim(d.password) != "" && |d.password| >= 6
  {
    BlankIffAllSpace(d.password);
  }

  /**
   * The "required" test on the e-mail is subsumed by the pattern: the
   * address passes exactly when the pattern matches. So `user@example.com`
   * passes, while `user@example` (no '.' after the '@') and `a@.b` (nothing
   * between the '@' and the '.') do not.
   */
  lemma EmailAccepted(d: FormData)
    ensures Email !in FormErrors(d) <==> EmailShaped(d.email)
  {
    assert Email !in FormErrors(d) <==> EmailRule(d.email).None?;
    if EmailShaped(d.email) {
      EmailShapedNotBlank(d.email);
    }
  }

  /** An address the pattern matches has a non-space character. */
  lemma EmailShapedNotBlank(s: string)
    requires EmailShaped(s)
    ensures !AllSpace(s)
  {
    var at, dot :| 0 < at < |s| && 0 < dot < |s| && EmailMatchAt(s, at, dot);
    assert !IsSpace(s[at - 1]);
  }

  /** A base is required exactly for a role other than Admin. */
  lemma AssignedBaseRequiredUnlessAdmin(d: FormData)
    ensures AssignedBase in FormErrors(d) <==> d.role != "Admin" && d.assignedBase == ""
  {
  }

  /** At most one username message, and the "required" one exactly for a blank value. */
  lemma UsernameMessages(u: string)
    ensures UsernameRule(u).Some? ==>
      (UsernameRule(u).value == UsernameRequired <==> Trim(u) == "")
      && UsernameRule(u).value in {UsernameRequired, UsernameTooShort}
  {
    BlankIffAllSpace(u);
  }

  /** At most one password message, and the "required" one exactly for a blank value. */
  lemma PasswordMessages(p: string)
    ensures PasswordRule(p).Some? ==>
      (PasswordRule(p).value == PasswordRequired <==> Trim(p) == "")
      && PasswordRule(p).value in {PasswordRequired, PasswordTooShort}
  {
    BlankIffAllSpace(p);
  }

  /** The initial form fails on every field but the role. */
  lemma InitialDataRejected()
    ensures FormErrors(InitialData).Keys == {Username, Password, Email, FullName, AssignedBase}
  {
    assert AllSpace("");
    var errs := FormErrors(InitialData);
    forall f
      ensures f in errs <==> f != RoleField
    {
      assert Rule(InitialData, f).Some? <==> f != RoleField;
    }
  }

  /** The form's state: the record and the error map on display. */
  class UserFormState {
    var formData: FormData
    var errors: map<Field, string>

    /** Every message on display is non-empty, so `if (errors[name])` holds exactly for a field in the map. */
    ghost predicate Valid()
      reads this
    {
      forall f :: f in errors ==> errors[f] != ""
    }

    constructor ()
      ensures Valid() && formData == InitialData && errors == map[]
    {
      formData := InitialData;
      errors := map[];
    }

    /** Editing one field: that field takes the value and loses its error; nothing else changes. */
    method HandleChange(f: Field, value: string)
      requires Valid()
      modifies this
      ensures Valid()
      ensures formData == With(old(formData), f, value)
      ensures errors == old(errors) - {f}
    {
      formData := With(formData, f, value);
      if f in errors && errors[f] != "" {
        errors := errors - {f};
      }
    }

    /** Runs the checks in order, replaces the whole error map, and reports whether it is empty. */
    method ValidateForm() returns (ok: bool)
      modifies this
      ensures Valid()
      ensures formData == old(formData)
      ensures errors == FormErrors(formData)
      ensures ok <==> errors == map[]
    {
      var d := formData;
      var newErrors: map<Field, string> := map[];
      newErrors := Put(newErrors, Username, UsernameRule(d.username));
      newErrors := Put(newErrors, Password, PasswordRule(d.password));
      newErrors := Put(newErrors, Email, EmailRule(d.email));
      newErrors := Put(newErrors, FullName, FullNameRule(d.fullName));
      newErrors := Put(newErrors, AssignedBase, AssignedBaseRule(d.role, d.assignedBase));
      FormErrorsInOrder(d);
      errors := newErrors;
      ok := |newErrors| == 0;
    }

    /** `onSubmit(formData)` is called, with the current record, exactly when validation passes. */
    method HandleSubmit() returns (submitted: Option<FormData>)
      modifies this
      ensures Valid()
      ensures formData == old(formData) && errors == FormErrors(formData)
      ensures submitted == if FormErrors(formData) == map[] then Some(formData) else None
    {
      var ok := ValidateForm();
      submitted := if ok then Some(formData) else None;
    }
  }
}
