/**
 * The sign-in / sign-up page: the two form schemas (the first failing field's
 * message is shown), the admin-login variant chosen by the query string, and
 * the two submit handlers with their `loading` flag.
 */
module Auth {
  import opened Common
  import opened Tables

  const InvalidEmail := "Invalid email address"
  const ShortPassword := "Password must be at least 8 characters"
  const ShortName := "Name must be at least 2 characters"
  const MissingPassword := "Password is required"

  /**
   * `signUpSchema`: the first issue in field order (email, password, full
   * name), or None. `validEmail` stands for the schema's email check.
   */
  function SignUpIssue(email: string, password: string, fullName: string, validEmail: string -> bool)
    : (issue: Option<string>)
    ensures issue.None? <==> validEmail(email) && |password| >= 8 && |fullName| >= 2
    ensures !validEmail(email) ==> issue == Some(InvalidEmail)
    ensures validEmail(email) && |password| < 8 ==> issue == Some(ShortPassword)
    ensures validEmail(email) && |password| >= 8 && |fullName| < 2 ==> issue == Some(ShortName)
  {
    if !validEmail(email) then Some(InvalidEmail)
    else if |password| < 8 then Some(ShortPassword)
    else if |fullName| < 2 then Some(ShortName)
    else None
  }

  /** `signInSchema`: a valid email, then a non-empty password. */
  function SignInIssue(email: string, password: string, validEmail: string -> bool): (issue: Option<string>)
    ensures issue.None? <==> validEmail(email) && password != ""
    ensures !validEmail(email) ==> issue == Some(InvalidEmail)
    ensures validEmail(email) && password == "" ==> issue == Some(MissingPassword)
  {
    if !validEmail(email) then Some(InvalidEmail)
    else if password == "" then Some(MissingPassword)
    else None
  }

  /** Any password accepted at sign-up is accepted at sign-in. */
  lemma SignUpStricterThanSignIn(email: string, password: string, fullName: string, validEmail: string -> bool)
    requires SignUpIssue(email, password, fullName, validEmail).None?
    ensures SignInIssue(email, password, validEmail).None?
  {
  }

  /** `searchParams.get('admin') === 'true'` */
  function IsAdminLogin(admin: Option<string>): (b: bool)
    ensures admin.None? || admin == Some("1") || admin == Some("TRUE") ==> !b
  {
    admin == Some("true")
  }

  datatype Tab = SignIn | SignUp

  /** `tab === 'signup' && !isAdminLogin ? 'signup' : 'signin'` */
  function DefaultTab(tab: Option<string>, admin: Option<string>): (t: Tab)
    ensures t == SignUp <==> tab == Some("signup") && !IsAdminLogin(admin)
  {
    if tab == Some("signup") && !IsAdminLogin(admin) then SignUp else SignIn
  }

  /** The admin login opens on the sign-in tab whatever `tab` says. */
  lemma AdminLoginOpensSignIn(tab: Option<string>)
    ensures DefaultTab(tab, Some("true")) == SignIn
  {
  }

  /** The page's state: the `loading` flag and the backend session it opens or closes. */
  class AuthPage {
    var loading: bool
    var session: Option<UserId>

    constructor (session: Option<UserId>)
      ensures !loading && this.session == session
    {
      loading := false;
      this.session := session;
    }

    /**
     * Sign-up submit (the button is disabled while loading). The form's first
     * issue stops it before the backend is called.
     */
    method HandleSignUp(email: string, password: string, fullName: string, validEmail: string -> bool,
                        fail: Option<DbError>) returns (toast: Result<string, string>, called: bool)
      requires !loading
      modifies this`loading
      ensures !loading
      ensures var issue := SignUpIssue(email, password, fullName, validEmail);
        && (called <==> issue.None?)
        && (issue.Some? ==> toast == Err(issue.value))
        && (issue.None? && fail.Some? ==> toast == Err(ErrorText(fail.value, "Failed to sign up")))
        && (toast.Ok? <==> issue.None? && fail.None?)
      ensures toast.Ok? ==> toast.value == "Account created successfully!"
    {
      loading := true;
      var issue := SignUpIssue(email, password, fullName, validEmail);
      if issue.Some? {
        toast, called := Err(issue.value), false;
      } else if fail.Some? {
        toast, called := Err(ErrorText(fail.value, "Failed to sign up")), true;
      } else {
        toast, called := Ok("Account created successfully!"), true;
      }
      loading := false;
    }

    /**
     * Sign-in submit. `auth` is the password check's answer (the user's id, or
     * an error). On the admin login a user without exactly one admin row
     * (the lookup uses `.single()`) is signed out again.
     */
    method HandleSignIn(email: string, password: string, validEmail: string -> bool, admin: Option<string>,
                        auth: Result<UserId, DbError>, roles: seq<RoleRow>)
      returns (toast: Result<string, string>, called: bool)
      requires !loading
      modifies this`loading, this`session
      ensures !loading
      ensures var issue := SignInIssue(email, password, validEmail);
        && (called <==> issue.None?)
        && (issue.Some? ==> toast == Err(issue.value) && session == old(session))
        && (issue.None? && auth.Err? ==> toast == Err(ErrorText(auth.error, "Failed to sign in")) && session == old(session))
        && (issue.None? && auth.Ok? && IsAdminLogin(admin) && AdminRowCount(roles, auth.value) != 1 ==>
              toast == Err("Access denied. Admin privileges required.") && session.None?)
        && (issue.None? && auth.Ok? && IsAdminLogin(admin) && AdminRowCount(roles, auth.value) == 1 ==>
              toast == Ok("Admin login successful!") && session == Some(auth.value))
        && (issue.None? && auth.Ok? && !IsAdminLogin(admin) ==>
              toast == Ok("Signed in successfully!") && session == Some(auth.value))
    {
      loading := true;
      var issue := SignInIssue(email, password, validEmail);
      called := issue.None?;
      if issue.Some? {
        toast := Err(issue.value);
      } else if auth.Err? {
        toast := Err(ErrorText(auth.error, "Failed to sign in"));
      } else {
        session := Some(auth.value);
        if IsAdminLogin(admin) {
          if AdminRowCount(roles, auth.value) != 1 {
            session := None;
            toast := Err("Access denied. Admin privileges required.");
          } else {
            toast := Ok("Admin login successful!");
          }
        } else {
          toast := Ok("Signed in successfully!");
        }
      }
      loading := false;
    }
  }

  /** The admin gate's `.single()` lookup succeeds only for a user who has an admin role row. */
  lemma AdminLoginNeedsAdminRow(roles: seq<RoleRow>, user: UserId)
    requires AdminRowCount(roles, user) == 1
    ensures RoleRow(user, AdminRole) in roles
  {
  }
}
