/**
 * The admin signup screen. Unlike login, the reCAPTCHA check is enforced
 * here and the form is posted in the clear.
 */
module AdminSignup {
  import opened Wrappers
  import opened Json
  import opened Storage
  import Routes

  const SignupPath := "/moox_events/api/auth/add_admin"
  const SignupSuccessful := "Signup successful. Verify OTP sent to your email."

  const EmptySignupForm: Obj := map["name" := Str(""), "mobile_no" := Str(""), "email" := Str(""),
                                    "date_of_birth" := Str(""), "gender" := Str(""), "password" := Str("")]

  class Signup {
    var formData: Obj
    var recaptchaToken: Value
    var errorMessage: Value
    var successMessage: Value
    var isLoading: bool
    var passwordVisible: bool

    constructor ()
      ensures formData == EmptySignupForm && recaptchaToken == Null
      ensures errorMessage == Str("") && successMessage == Str("") && !isLoading && !passwordVisible
    {
      formData, recaptchaToken := EmptySignupForm, Null;
      errorMessage, successMessage, isLoading, passwordVisible := Str(""), Str(""), false, false;
    }

    /** `handleChange`: the input named `name` writes its value into the form. */
    method HandleChange(name: string, value: string)
      modifies this
      ensures formData == old(formData)[name := Str(value)]
      ensures recaptchaToken == old(recaptchaToken) && errorMessage == old(errorMessage)
      ensures successMessage == old(successMessage) && isLoading == old(isLoading)
      ensures passwordVisible == old(passwordVisible)
    {
      formData := formData[name := Str(value)];
    }

    /** `handleRecaptchaChange(token)`. */
    method HandleRecaptchaChange(token: Value)
      modifies this
      ensures recaptchaToken == token
      ensures formData == old(formData) && errorMessage == old(errorMessage)
      ensures successMessage == old(successMessage) && isLoading == old(isLoading)
      ensures passwordVisible == old(passwordVisible)
    {
      recaptchaToken := token;
    }

    /**
     * `handlePageChange`: the "log in" link empties storage and loads the
     * login page. The link is written as `/login`, which the route table
     * does not declare; this model follows the login page's own path.
     */
    method HandlePageChange(storage: LocalStorage) returns (effect: Effect)
      modifies storage
      ensures storage.items == map[] && effect == GoTo(Routes.LoginPath)
    {
      storage.Clear();
      effect := GoTo(Routes.LoginPath);
    }

    /**
     * `handleSignup`. Without a token nothing is sent. Otherwise the form and
     * the token are posted; exactly the success message stores the entered
     * email and goes to `/admin/verify`, any other answer reloads; a failure
     * shows the server's message or "Signup error". Loading ends false.
     */
    method HandleSignup(storage: LocalStorage, reply: Reply<Obj>) returns (sent: Option<Request>, effect: Effect)
      modifies this, storage
      ensures !isLoading && formData == old(formData) && recaptchaToken == old(recaptchaToken)
      ensures passwordVisible == old(passwordVisible)
      ensures sent.None? <==> !Truthy(recaptchaToken)
      ensures sent.None? ==>
        errorMessage == Str("Please complete the reCAPTCHA") && successMessage == Str("") &&
        storage.items == old(storage.items) && effect == Stay
      ensures sent.Some? ==> sent.value == Post(SignupPath, formData["recaptchaToken" := recaptchaToken])
      ensures sent.Some? && reply.Ok? ==>
        var m := Get(reply.data, "message");
        successMessage == m && errorMessage == Str("") &&
        (m == Str(SignupSuccessful) ==>
          storage.items == old(storage.items)["emailid" := ToText(Get(formData, "email"))] &&
          effect == GoTo("/admin/verify")) &&
        (m != Str(SignupSuccessful) ==> storage.items == old(storage.items) && effect == Reload)
      ensures sent.Some? && reply.Failed? ==>
        errorMessage == Or(ServerMessage(reply.error), Str("Signup error")) && successMessage == Str("") &&
        storage.items == old(storage.items) && effect == Stay
    {
      errorMessage, successMessage, isLoading := Str(""), Str(""), true;
      effect := Stay;
      if !Truthy(recaptchaToken) {
        errorMessage, isLoading := Str("Please complete the reCAPTCHA"), false;
        return None, effect;
      }
      sent := Some(Post(SignupPath, formData["recaptchaToken" := recaptchaToken]));
      match reply {
        case Ok(data) =>
          successMessage := Get(data, "message");
          if Get(data, "message") == Str(SignupSuccessful) {
            storage.SetItem("emailid", ToText(Get(formData, "email")));
            effect := GoTo("/admin/verify");
          } else {
            effect := Reload;
          }
        case Failed(e) =>
          errorMessage := Or(ServerMessage(e), Str("Signup error"));
      }
      isLoading := false;
    }
  }

  /** The path the "log in" link loads as written. */
  const LoginLinkAsWritten := "/login"

  /**
   * As written, the "log in" link lands on the catch-all, which renders
   * nothing and sends the visitor to the home page.
   */
  lemma LoginLinkAsWrittenGoesHome(items: map<string, string>)
    ensures Routes.VisitPath(Routes.AppRoutes, LoginLinkAsWritten, items) ==
      Some(Routes.Visit(Routes.NotFoundRedirect, GoTo("/")))
    ensures Routes.VisitPath(Routes.AppRoutesAsWritten, LoginLinkAsWritten, items) ==
      Some(Routes.Visit(Routes.NotFoundRedirect, GoTo("/")))
  {
    Routes.NormalOf(LoginLinkAsWritten);
    Routes.UnknownPathsGoHome(Routes.AppRoutes, LoginLinkAsWritten, items);
    Routes.UnknownPathsGoHome(Routes.AppRoutesAsWritten, LoginLinkAsWritten, items);
  }

  /** The login page's own path shows the login page, with no guard to send anyone away. */
  lemma LoginLinkReachesLogin(items: map<string, string>)
    ensures Routes.VisitPath(Routes.AppRoutes, Routes.LoginPath, items) ==
      Some(Routes.Visit(Routes.LoginPage, Stay))
  {
    Routes.NormalOf(Routes.LoginPath);
    Routes.LoginPageOpen(Routes.LoginPath, items);
  }
}
