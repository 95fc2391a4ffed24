/** The craft app's registration page (tribal-craft/src/pages/RegisterPage.jsx).
    The 600 ms timer is modelled by splitting the submit into `HandleSubmit`,
    which returns the account it hands to the timer, and `FinishRegister`,
    the timer's body given what `onRegister` answered. `onRegister` is the
    store's `registerUser`. */
module RegisterPage {
  import opened Wrappers
  import opened Text
  import opened Catalog
  import opened Store

  const FillAllFields: string := "⚠️ Please fill all fields."
  const UsernameExists: string := "❌ Username already exists."
  const Registered: string := "✅ Registered successfully!"

  class RegisterForm {
    var username: string
    var password: string
    var role: string
    var message: string
    var loading: bool

    constructor()
      ensures username == "" && password == "" && role == "" && message == "" && !loading
    {
      username := "";
      password := "";
      role := "";
      message := "";
      loading := false;
    }

    /** The synchronous part of `handleSubmit`: a blank username or password,
        or no role, is reported; otherwise `loading` is set and the account,
        with trimmed username and password and the role as chosen, is handed
        to the timer. */
    method HandleSubmit() returns (pending: Option<User>)
      modifies this`message, this`loading
      ensures IsBlank(username) || IsBlank(password) || role == "" ==>
        pending.None? && message == FillAllFields && loading == old(loading)
      ensures !IsBlank(username) && !IsBlank(password) && role != "" ==>
        pending == Some(User(Trim(username), Trim(password), role)) && loading && message == old(message)
    {
      var user := Trim(username);
      var pass := Trim(password);
      if user == "" || pass == "" || role == "" {
        message := FillAllFields;
        return None;
      }
      loading := true;
      pending := Some(User(user, pass, role));
    }

    /** The timer's body: a falsy answer reports a taken username and leaves
        the form as it is; a truthy one reports success and clears the form.
        Either way `loading` ends false. */
    method FinishRegister(success: bool)
      modifies this`message, this`loading, this`username, this`password, this`role
      ensures !loading
      ensures !success ==> message == UsernameExists && username == old(username) && password == old(password) && role == old(role)
      ensures success ==> message == Registered && username == "" && password == "" && role == ""
    {
      if !success {
        message := UsernameExists;
      } else {
        message := Registered;
        username := "";
        password := "";
        role := "";
      }
      loading := false;
    }
  }

  /** A whole registration against the store. Because `registerUser`
      answers true even for a taken username, the page reports success and
      clears the form in that case too, while the user list stays as it
      was. */
  method SubmitRegistration(page: RegisterForm, app: AppStore)
    requires app.Valid()
    modifies page`message, page`loading, page`username, page`password, page`role, app`users
    ensures app.Valid()
    ensures IsBlank(old(page.username)) || IsBlank(old(page.password)) || old(page.role) == "" ==>
      page.message == FillAllFields && app.users == old(app.users)
    ensures !IsBlank(old(page.username)) && !IsBlank(old(page.password)) && old(page.role) != "" ==>
      var u := User(Trim(old(page.username)), Trim(old(page.password)), old(page.role));
      && app.users == Register(old(app.users), u)
      && page.message == Registered && !page.loading
      && (Taken(old(app.users), u.username) ==> app.users == old(app.users))
  {
    var pending := page.HandleSubmit();
    if pending.Some? {
      var ok := app.RegisterUser(pending.value);
      page.FinishRegister(ok);
    }
  }
}
