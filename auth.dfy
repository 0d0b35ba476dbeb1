/** The admin flag of lib/auth.ts: a single localStorage entry "isAdmin" that
    is written, read and removed, and the login form that sets it. The admin
    account of lib/data is a parameter. */
module Auth {
  import opened Common

  datatype Credentials = Credentials(email: string, password: string)

  /** `value.toString()`. */
  function BoolText(value: bool): string {
    if value then "true" else "false"
  }

  class Session {
    const onServer: bool
    /** The "isAdmin" entry. */
    var isAdmin: Option<string>

    constructor(onServer: bool, isAdmin: Option<string>)
      ensures this.onServer == onServer && this.isAdmin == isAdmin
    {
      this.onServer := onServer;
      this.isAdmin := isAdmin;
    }

    /** `isAuthenticated`: never on the server; otherwise the entry must be exactly "true". */
    predicate IsAuthenticated()
      reads this
    {
      !onServer && isAdmin == Some("true")
    }

    /** `setAuthenticated`: store the flag as text; nothing on the server. */
    method SetAuthenticated(value: bool)
      modifies this
      ensures isAdmin == if onServer then old(isAdmin) else Some(BoolText(value))
      ensures IsAuthenticated() == (!onServer && value)
    {
      if onServer {
        return;
      }
      isAdmin := Some(BoolText(value));
    }

    /** The login form's submit handler, where `login` compares both the email and
        the password with the admin's: on matching credentials the flag is set
        and the page moves on to the dashboard (`None`); otherwise the form shows
        its error message and the flag is left alone. */
    method Submit(email: string, password: string, admin: Credentials) returns (error: Option<string>)
      modifies this
      ensures error.None? <==> email == admin.email && password == admin.password
      ensures error.Some? ==> error.value == "Invalid email or password" && isAdmin == old(isAdmin)
      ensures error.None? ==> isAdmin == if onServer then old(isAdmin) else Some("true")
      ensures !onServer && !old(IsAuthenticated()) ==>
                (IsAuthenticated() <==> email == admin.email && password == admin.password)
    {
      if email == admin.email && password == admin.password {
        SetAuthenticated(true);
        error := None;
      } else {
        error := Some("Invalid email or password");
      }
    }

    /** `logout`: remove the entry; nothing on the server. */
    method Logout()
      modifies this
      ensures isAdmin == if onServer then old(isAdmin) else None
      ensures !IsAuthenticated()
    {
      if onServer {
        return;
      }
      isAdmin := None;
    }
  }
}
