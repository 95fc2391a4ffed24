/** The shop's password-reset page (src/pages/ForgotPasswordPage.jsx). The
    reset link is not actually sent; the 3 s redirect is recorded in
    `scheduled` when it is set up. */
module ForgotPasswordPage {
  import opened Text

  const EnterEmail: string := "Please enter your email address."
  const LinkSentPrefix: string := "A password reset link has been sent to "
  const LoginPath: string := "/login"

  class ForgotPasswordForm {
    var email: string
    var message: string
    /** The redirects scheduled so far. */
    var scheduled: seq<string>

    constructor()
      ensures email == "" && message == "" && scheduled == []
    {
      email := "";
      message := "";
      scheduled := [];
    }

    /** `handleSubmit`: a blank address is reported and nothing else
        happens; otherwise the confirmation names the address as typed
        (untrimmed), the field is cleared and a redirect to the login page
        is scheduled. */
    method HandleSubmit()
      modifies this
      ensures IsBlank(old(email)) ==> message == EnterEmail && email == old(email) && scheduled == old(scheduled)
      ensures !IsBlank(old(email)) ==>
        message == LinkSentPrefix + old(email) && email == "" && scheduled == old(scheduled) + [LoginPath]
    {
      if Trim(email) == "" {
        message := EnterEmail;
        return;
      }
      message := LinkSentPrefix + email;
      email := "";
      scheduled := scheduled + [LoginPath];
    }
  }
}
