/** The shop's login page (src/pages/LoginPage.jsx): username and password,
    a letter CAPTCHA, and a delayed login that routes by role. The random
    numbers the CAPTCHA is drawn from are a parameter (`draws`, each in
    [0, 1)); the 500 ms timer is modelled by splitting the submit into
    `HandleSubmit`, which returns the credentials it hands to the timer,
    and `FinishLogin`, the timer's body given what `onLogin` answered. */
module LoginPage {
  import opened Wrappers
  import opened Text
  import opened Catalog

  /** The CAPTCHA alphabet: the 26 upper-case letters, then the 26
      lower-case ones. */
  const CaptchaChars: string :=
    seq(26, i requires 0 <= i < 26 => ('A' as int + i) as char) + seq(26, i requires 0 <= i < 26 => ('a' as int + i) as char)

  const EnterBoth: string := "Please enter both username and password."
  const IncorrectCaptcha: string := "Incorrect CAPTCHA."
  const InvalidLogin: string := "Invalid username or password."
  const ForgotPasswordPath: string := "/forgot-password"

  /** Every character a CAPTCHA may use is an ASCII letter. */
  lemma CaptchaCharsAreLetters()
    ensures |CaptchaChars| == 52
    ensures forall k :: 0 <= k < |CaptchaChars| ==> IsAsciiLetter(CaptchaChars[k])
  {
  }

  /** `Math.floor(r * n)` for a draw `r` in [0, 1) is a valid index below `n`. */
  lemma FloorIndex(r: real, n: nat)
    requires 0.0 <= r < 1.0 && n > 0
    ensures 0 <= (r * n as real).Floor < n
  {
    assert r * n as real < n as real;
  }

  /** What a CAPTCHA looks like: four or five ASCII letters. */
  predicate ValidCaptcha(code: string) {
    4 <= |code| <= 5 && forall i :: 0 <= i < |code| ==> IsAsciiLetter(code[i])
  }

  /** The code `generateCaptcha` builds: the first draw picks the length,
      4 or 5, and each further draw picks one letter. */
  method CaptchaCode(draws: seq<real>) returns (code: string)
    requires |draws| >= 6
    requires forall i :: 0 <= i < |draws| ==> 0.0 <= draws[i] < 1.0
    ensures |code| == (draws[0] * 2.0).Floor + 4
    ensures ValidCaptcha(code)
    ensures forall i :: 0 <= i < |code| ==> 0 <= (draws[i + 1] * 52.0).Floor < 52 && code[i] == CaptchaChars[(draws[i + 1] * 52.0).Floor]
  {
    CaptchaCharsAreLetters();
    FloorIndex(draws[0], 2);
    var length := (draws[0] * 2.0).Floor + 4;
    code := "";
    var i := 0;
    while i < length
      invariant 0 <= i <= length
      invariant |code| == i
      invariant forall j :: 0 <= j < i ==> 0 <= (draws[j + 1] * 52.0).Floor < 52 && code[j] == CaptchaChars[(draws[j + 1] * 52.0).Floor]
    {
      FloorIndex(draws[i + 1], |CaptchaChars|);
      code := code + [CaptchaChars[(draws[i + 1] * |CaptchaChars| as real).Floor]];
      i := i + 1;
    }
  }

  /** What the page's `onLogin` answers on success: the page reads only
      the role. */
  datatype Session = Session(username: string, role: string)

  /** `dummyLogin`: an artisan session for ("user", "pass") only. */
  function DummyLogin(username: string, password: string): (r: Option<Session>)
    ensures r.Some? <==> username == "user" && password == "pass"
    ensures r.Some? ==> r.value == Session("user", "artisan")
  {
    if username == "user" && password == "pass" then Some(Session(username, "artisan")) else None
  }

  /** The random draws a CAPTCHA needs. */
  predicate GoodDraws(draws: seq<real>) {
    |draws| >= 6 && forall i :: 0 <= i < |draws| ==> 0.0 <= draws[i] < 1.0
  }

  class LoginForm {
    var username: string
    var password: string
    var captchaInput: string
    var message: string
    var loading: bool
    var captchaCode: string
    var navigatedTo: Option<string>

    /** The page as mounted: empty fields and a first CAPTCHA. */
    constructor(draws: seq<real>)
      requires GoodDraws(draws)
      ensures username == "" && password == "" && captchaInput == "" && message == "" && !loading && navigatedTo.None?
      ensures ValidCaptcha(captchaCode)
    {
      username := "";
      password := "";
      captchaInput := "";
      message := "";
      loading := false;
      navigatedTo := None;
      new;
      GenerateCaptcha(draws);
    }

    /** `generateCaptcha`: a new code replaces the old one. */
    method GenerateCaptcha(draws: seq<real>)
      requires GoodDraws(draws)
      modifies this`captchaCode
      ensures ValidCaptcha(captchaCode)
    {
      captchaCode := CaptchaCode(draws);
    }

    /** The synchronous part of `handleSubmit`. Blank credentials are
        reported before the CAPTCHA is looked at; a CAPTCHA that does not
        match exactly (after trimming the input) clears the input and
        draws a new code; otherwise `loading` is set and the trimmed
        credentials are handed to the timer. */
    method HandleSubmit(draws: seq<real>) returns (pending: Option<(string, string)>)
      requires GoodDraws(draws)
      modifies this`message, this`captchaInput, this`captchaCode, this`loading
      ensures IsBlank(username) || IsBlank(password) ==>
        pending.None? && message == EnterBoth && captchaInput == old(captchaInput) && captchaCode == old(captchaCode)
        && loading == old(loading)
      ensures !IsBlank(username) && !IsBlank(password) && Trim(old(captchaInput)) != old(captchaCode) ==>
        pending.None? && message == IncorrectCaptcha && captchaInput == "" && loading == old(loading)
        && ValidCaptcha(captchaCode)
      ensures !IsBlank(username) && !IsBlank(password) && Trim(old(captchaInput)) == old(captchaCode) ==>
        pending == Some((Trim(username), Trim(password))) && loading
        && message == old(message) && captchaInput == old(captchaInput) && captchaCode == old(captchaCode)
    {
      var user := Trim(username);
      var pass := Trim(password);
      if user == "" || pass == "" {
        message := EnterBoth;
        return None;
      }
      if Trim(captchaInput) != captchaCode {
        message := IncorrectCaptcha;
        captchaInput := "";
        GenerateCaptcha(draws);
        return None;
      }
      loading := true;
      pending := Some((user, pass));
    }

    /** The timer's body, given `onLogin`'s answer. A failed login reports
        it, clears `loading` and the CAPTCHA input and draws a new code; a
        successful one clears the message and routes by role, leaving
        `loading` set. */
    method FinishLogin(user: Option<Session>, draws: seq<real>)
      requires GoodDraws(draws)
      modifies this`message, this`loading, this`captchaInput, this`captchaCode, this`navigatedTo
      ensures user.None? ==> message == InvalidLogin && !loading && captchaInput == "" && navigatedTo == old(navigatedTo)
                             && ValidCaptcha(captchaCode)
      ensures user.Some? ==> message == "" && loading == old(loading) && navigatedTo == Some(RouteForRole(user.value.role))
                             && captchaInput == old(captchaInput) && captchaCode == old(captchaCode)
    {
      if user.None? {
        message := InvalidLogin;
        loading := false;
        captchaInput := "";
        GenerateCaptcha(draws);
      } else {
        message := "";
        navigatedTo := Some(RouteForRole(user.value.role));
      }
    }

    /** `handleForgotPassword`: the supplied handler when there is one,
        otherwise the default route. */
    method HandleForgotPassword(hasHandler: bool) returns (handlerCalled: bool)
      modifies this`navigatedTo
      ensures handlerCalled == hasHandler
      ensures hasHandler ==> navigatedTo == old(navigatedTo)
      ensures !hasHandler ==> navigatedTo == Some(ForgotPasswordPath)
    {
      if hasHandler {
        handlerCalled := true;
      } else {
        handlerCalled := false;
        navigatedTo := Some(ForgotPasswordPath);
      }
    }
  }

  /** A whole login with `dummyLogin` as `onLogin`: the form's submit, the
      answer for the trimmed credentials, and the timer's body. Only
      ("user", "pass") gets in, and it lands on the artisan dashboard. */
  method SubmitDummyLogin(page: LoginForm, draws: seq<real>)
    requires GoodDraws(draws)
    modifies page`message, page`captchaInput, page`captchaCode, page`loading, page`navigatedTo
    ensures IsBlank(page.username) || IsBlank(page.password) || Trim(old(page.captchaInput)) != old(page.captchaCode) ==>
      page.navigatedTo == old(page.navigatedTo) && page.message in {EnterBoth, IncorrectCaptcha}
    ensures !IsBlank(page.username) && !IsBlank(page.password) && Trim(old(page.captchaInput)) == old(page.captchaCode) ==>
      && (Trim(page.username) == "user" && Trim(page.password) == "pass" ==>
            page.message == "" && page.loading && page.navigatedTo == Some("/artisan"))
      && (!(Trim(page.username) == "user" && Trim(page.password) == "pass") ==>
            page.message == InvalidLogin && !page.loading && page.navigatedTo == old(page.navigatedTo))
  {
    var pending := page.HandleSubmit(draws);
    if pending.Some? {
      page.FinishLogin(DummyLogin(pending.value.0, pending.value.1), draws);
    }
  }
}

/** The craft app's login page (tribal-craft/src/pages/LoginPage.jsx): no
    CAPTCHA, the same delayed role routing. `onLogin` is the store's
    `loginUser`. */
module CraftLoginPage {
  import opened Wrappers
  import opened Text
  import opened Catalog
  import opened Store

  const EnterBoth: string := "Please enter both username and password."
  const InvalidLogin: string := "Invalid username or password."

  class CraftLoginForm {
    var username: string
    var password: string
    var message: string
    var loading: bool
    var navigatedTo: Option<string>

    constructor()
      ensures username == "" && password == "" && message == "" && !loading && navigatedTo.None?
    {
      username := "";
      password := "";
      message := "";
      loading := false;
      navigatedTo := None;
    }

    /** The synchronous part of `handleSubmit`: blank credentials are
        reported; otherwise `loading` is set and the trimmed credentials
        are handed to the timer. */
    method HandleSubmit() returns (pending: Option<(string, string)>)
      modifies this`message, this`loading
      ensures IsBlank(username) || IsBlank(password) ==>
        pending.None? && message == EnterBoth && loading == old(loading)
      ensures !IsBlank(username) && !IsBlank(password) ==>
        pending == Some((Trim(username), Trim(password))) && loading && message == old(message)
    {
      var user := Trim(username);
      var pass := Trim(password);
      if user == "" || pass == "" {
        message := EnterBoth;
        return None;
      }
      loading := true;
      pending := Some((user, pass));
    }

    /** The timer's body: a failed login reports it and clears `loading`; a
        successful one clears the message and routes by role, leaving
        `loading` set. */
    method FinishLogin(user: Option<User>)
      modifies this`message, this`loading, this`navigatedTo
      ensures user.None? ==> message == InvalidLogin && !loading && navigatedTo == old(navigatedTo)
      ensures user.Some? ==> message == "" && loading == old(loading) && navigatedTo == Some(RouteForRole(user.value.role))
    {
      if user.None? {
        message := InvalidLogin;
        loading := false;
      } else {
        message := "";
        navigatedTo := Some(RouteForRole(user.value.role));
      }
    }
  }

  /** A whole login against the store: the form's submit, the store's
      `loginUser` with the trimmed credentials, and the timer's body. With
      blank credentials the store is not asked. A matching account is
      logged in and routed to its role's page, which admits it. */
  method SubmitLogin(page: CraftLoginForm, app: AppStore)
    requires app.Valid()
    modifies page`message, page`loading, page`navigatedTo, app`currentUser
    ensures app.Valid()
    ensures IsBlank(page.username) || IsBlank(page.password) ==>
      page.message == EnterBoth && app.currentUser == old(app.currentUser) && page.navigatedTo == old(page.navigatedTo)
    ensures !IsBlank(page.username) && !IsBlank(page.password) ==>
      var found := FindLogin(app.users, Trim(page.username), Trim(page.password));
      && (found.None? ==> page.message == InvalidLogin && !page.loading && app.currentUser == old(app.currentUser))
      && (found.Some? ==> app.currentUser == found && page.navigatedTo == Some(RouteForRole(found.value.role))
                          && ProtectedRoute(app.currentUser, RequiredRole(page.navigatedTo.value)) == Children)
  {
    var pending := page.HandleSubmit();
    if pending.Some? {
      var user := app.LoginUser(pending.value.0, pending.value.1);
      page.FinishLogin(user);
      if user.Some? {
        LandingPageAdmits(user.value);
      }
    }
  }
}
