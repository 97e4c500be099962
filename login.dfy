/**
 * The sign-in screen (client/src/components/Login.jsx): a role tab, two
 * text boxes, and the credential decision made when the form is submitted.
 * Signing in hands a session kind to the application shell; a refusal
 * shows an error under the form.
 */
module Login {
  import opened Wrappers

  /** The two tabs of the role switcher ('applicant' and 'admin'). */
  datatype RoleTab = ApplicantTab | AdminTab

  /** What `onLogin` receives: 'user' or 'admin'. */
  datatype Session = User | Admin

  const AdminUsername := "admin"
  const AdminPassword := "admin123"
  const BadStaffCredentials := "Invalid Bank Staff credentials"
  const MissingCredentials := "Please enter username and password"

  /**
   * The decision of `handleLogin`. On the staff tab only the one fixed
   * credential pair is accepted; on the applicant tab any non-empty pair
   * is (an empty string is falsy).
   */
  function Authenticate(role: RoleTab, username: string, password: string): (r: Result<Session, string>)
    ensures role == AdminTab ==>
      (r == Success(Admin) <==> username == AdminUsername && password == AdminPassword)
    ensures role == AdminTab && r.Failure? ==> r.error == BadStaffCredentials
    ensures role == ApplicantTab ==>
      (r == Success(User) <==> username != "" && password != "")
    ensures role == ApplicantTab && r.Failure? ==> r.error == MissingCredentials
    ensures r.Success? ==> (r.value == Admin <==> role == AdminTab)
    // the staff pair is non-empty, so it also opens a user session on the applicant tab
    ensures role == AdminTab && r.Success? ==> username != "" && password != ""
  {
    match role
    case AdminTab =>
      if username == AdminUsername && password == AdminPassword then Success(Admin)
      else Failure(BadStaffCredentials)
    case ApplicantTab =>
      if username != "" && password != "" then Success(User)
      else Failure(MissingCredentials)
  }

  /** The form's state. */
  class LoginForm {
    var username: string
    var password: string
    var error: string
    var role: RoleTab

    /** Both boxes and the error start empty, on the applicant tab. */
    constructor ()
      ensures username == "" && password == "" && error == "" && role == ApplicantTab
    {
      username := "";
      password := "";
      error := "";
      role := ApplicantTab;
    }

    /** A click on a tab of the switcher; the boxes and any error stay. */
    method SetRole(tab: RoleTab)
      modifies this`role
      ensures role == tab
    {
      role := tab;
    }

    method SetUsername(text: string)
      modifies this`username
      ensures username == text
    {
      username := text;
    }

    method SetPassword(text: string)
      modifies this`password
      ensures password == text
    {
      password := text;
    }

    /**
     * `handleLogin`: on success returns the session handed to `onLogin` and
     * leaves the error text as it was; on refusal returns nothing and shows
     * the refusal's message.
     */
    method HandleLogin() returns (session: Option<Session>)
      modifies this`error
      ensures Authenticate(role, username, password).Success? ==>
        session == Some(Authenticate(role, username, password).value) && error == old(error)
      ensures Authenticate(role, username, password).Failure? ==>
        session == None && error == Authenticate(role, username, password).error
    {
      if role == AdminTab {
        if username == AdminUsername && password == AdminPassword {
          session := Some(Admin);
        } else {
          error := BadStaffCredentials;
          session := None;
        }
      } else {
        if username != "" && password != "" {
          session := Some(User);
        } else {
          error := MissingCredentials;
          session := None;
        }
      }
    }
  }
}
