/** The admin login form: its submit handler's `error` and `isSubmitting` state along each
    branch, and the hint shown when no organization is known. */
module AdminLoginForm {
  import opened Wrappers
  import opened Text
  import opened Forms

  /** The credentials handed to `login`. */
  datatype Credentials = Credentials(email: Option<string>, password: Option<string>, organizationId: Option<string>)

  datatype Organization = Organization(id: string, name: string, slug: string)

  const SelectOrganization: string := "Please select an organization"
  const LoginFallback: string := "Login failed. Please try again."

  class LoginForm {
    var error: string
    var isSubmitting: bool
    var organizations: seq<Organization>

    constructor(stored: seq<Organization>)
      ensures error == "" && !isSubmitting && organizations == stored
    {
      error := "";
      isSubmitting := false;
      organizations := stored;
    }

    /** The "create one here" hint is shown exactly when no organization is stored. */
    function ShowsCreateHint(): (b: bool)
      reads this
      ensures b <==> organizations == []
    {
      |organizations| == 0
    }

    /** `handleSubmit`. The error is cleared and the form marked submitting; without an
        organization it stops with a message and no login call; otherwise login receives
        exactly the form's three fields, a failure shows its message (or the fallback) and
        ends submitting, and a success leaves the form submitting while the page moves on.
        `loginResult` is how that login call ends; `sent` is what it was called with. */
    method HandleSubmit(form: FormData, loginResult: Outcome<Option<string>>) returns (sent: Option<Credentials>)
      modifies this
      ensures organizations == old(organizations)
      ensures !Truthy(Field(form, "organizationId")) ==>
        sent.None? && error == SelectOrganization && !isSubmitting
      ensures Truthy(Field(form, "organizationId")) ==>
        sent == Some(Credentials(Field(form, "email"), Field(form, "password"), Field(form, "organizationId")))
      ensures Truthy(Field(form, "organizationId")) && loginResult.Pass? ==> error == "" && isSubmitting
      ensures Truthy(Field(form, "organizationId")) && loginResult.Fail? ==>
        error == Or(loginResult.error, LoginFallback) && error != "" && !isSubmitting
    {
      error := "";
      isSubmitting := true;
      var email := Field(form, "email");
      var password := Field(form, "password");
      var organizationId := Field(form, "organizationId");
      if !Truthy(organizationId) {
        error := SelectOrganization;
        isSubmitting := false;
        sent := None;
        return;
      }
      sent := Some(Credentials(email, password, organizationId));
      if loginResult.Fail? {
        error := Or(loginResult.error, LoginFallback);
        isSubmitting := false;
      }
    }
  }
}
