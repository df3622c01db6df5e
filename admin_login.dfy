/**
 * The admin login screen. Credentials go to the server encrypted together
 * with the reCAPTCHA token (whose check is switched off, so the token may
 * be `null`); the answer is encrypted too, and the screen branches on its
 * exact message.
 */
module AdminLogin {
  import opened Wrappers
  import opened Json
  import opened Storage
  import opened Session

  const LoginPath := "/moox_events/api/auth/login"
  const NotVerified := "Account not verified. OTP has been sent to your email."

  class Login {
    var credentials: Obj
    var recaptchaToken: Value
    var errorMessage: Value
    var successMessage: Value
    var isLoading: bool
    var passwordVisible: bool

    constructor ()
      ensures credentials == map["email" := Str(""), "password" := Str("")] && recaptchaToken == Null
      ensures errorMessage == Str("") && successMessage == Str("") && !isLoading && !passwordVisible
    {
      credentials, recaptchaToken := map["email" := Str(""), "password" := Str("")], Null;
      errorMessage, successMessage, isLoading, passwordVisible := Str(""), Str(""), false, false;
    }

    /** `handleChange`: the input named `name` writes its value into the credentials. */
    method HandleChange(name: string, value: string)
      modifies this
      ensures credentials == old(credentials)[name := Str(value)]
      ensures recaptchaToken == old(recaptchaToken) && errorMessage == old(errorMessage)
      ensures successMessage == old(successMessage) && isLoading == old(isLoading)
      ensures passwordVisible == old(passwordVisible)
    {
      credentials := credentials[name := Str(value)];
    }

    /** `handleRecaptchaChange(token)`. */
    method HandleRecaptchaChange(token: Value)
      modifies this
      ensures recaptchaToken == token
      ensures credentials == old(credentials) && errorMessage == old(errorMessage)
      ensures successMessage == old(successMessage) && isLoading == old(isLoading)
      ensures passwordVisible == old(passwordVisible)
    {
      recaptchaToken := token;
    }

    /** `togglePasswordVisibility`. */
    method TogglePasswordVisibility()
      modifies this
      ensures passwordVisible == !old(passwordVisible)
      ensures credentials == old(credentials) && recaptchaToken == old(recaptchaToken)
      ensures errorMessage == old(errorMessage) && successMessage == old(successMessage) && isLoading == old(isLoading)
    {
      passwordVisible := !passwordVisible;
    }

    /** `handlePageChange`: the "sign up" link empties storage and goes to the signup page. */
    method HandlePageChange(storage: LocalStorage) returns (effect: Effect)
      modifies storage
      ensures storage.items == map[] && effect == GoTo("/admin/signup")
    {
      storage.Clear();
      effect := GoTo("/admin/signup");
    }

    /**
     * `handleLogin`. Answered "Login successful": the five session keys are
     * written and the browser goes to `/admin`; any other answer reloads and
     * writes nothing. Rejected: the decrypted message, or "Login error", is
     * shown, and only the not-verified message stores the entered email and
     * goes to `/admin/verify`. The loading flag ends false on every path.
     */
    method HandleLogin(storage: LocalStorage, reply: AuthReply) returns (sent: SealedPost, effect: Effect)
      modifies this, storage
      ensures sent == SealedPost(LoginPath, old(credentials)["recaptchaToken" := old(recaptchaToken)])
      ensures !isLoading
      ensures reply.Answered? && reply.data.Sealed? ==>
        var d := reply.data.plain;
        successMessage == Get(d, "message") && errorMessage == Str("") &&
        (Get(d, "message") == Str(LoginSuccessful) ==>
          storage.items == StoreSession(old(storage.items), d) && effect == GoTo("/admin")) &&
        (Get(d, "message") != Str(LoginSuccessful) ==> storage.items == old(storage.items) && effect == Reload)
      ensures reply == Answered(Unreadable) || reply == Rejected(None) ==>
        errorMessage == Str("Login error") && successMessage == Str("") &&
        storage.items == old(storage.items) && effect == Stay
      ensures reply.Rejected? && reply.sealed.Some? && reply.sealed.value.Sealed? ==>
        var m := Get(reply.sealed.value.plain, "message");
        errorMessage == m && successMessage == Str("") &&
        (m == Str(NotVerified) ==>
          storage.items == old(storage.items)["emailid" := ToText(Get(old(credentials), "email"))] &&
          effect == GoTo("/admin/verify")) &&
        (m != Str(NotVerified) ==> storage.items == old(storage.items) && effect == Stay)
      ensures reply == Rejected(Some(Unreadable)) ==>
        errorMessage == Str("") && successMessage == Str("") && storage.items == old(storage.items) && effect == Stay
      ensures credentials == old(credentials) && recaptchaToken == old(recaptchaToken)
      ensures passwordVisible == old(passwordVisible)
    {
      errorMessage, successMessage, isLoading := Str(""), Str(""), true;
      effect := Stay;
      sent := SealedPost(LoginPath, credentials["recaptchaToken" := recaptchaToken]);
      match reply {
        case Answered(data) =>
          effect := AfterAnswer(storage, data);
        case Rejected(sealed) =>
          effect := AfterRejection(storage, sealed);
      }
      isLoading := false;
    }

    /** A decrypted answer: store the session and go to `/admin` on success, else reload. */
    method AfterAnswer(storage: LocalStorage, data: Cipher) returns (effect: Effect)
      modifies this, storage
      ensures data.Sealed? ==>
        var d := data.plain;
        successMessage == Get(d, "message") && errorMessage == old(errorMessage) &&
        (Get(d, "message") == Str(LoginSuccessful) ==>
          storage.items == StoreSession(old(storage.items), d) && effect == GoTo("/admin")) &&
        (Get(d, "message") != Str(LoginSuccessful) ==> storage.items == old(storage.items) && effect == Reload)
      ensures data.Unreadable? ==>
        errorMessage == Str("Login error") && successMessage == old(successMessage) &&
        storage.items == old(storage.items) && effect == Stay
      ensures credentials == old(credentials) && recaptchaToken == old(recaptchaToken)
      ensures passwordVisible == old(passwordVisible) && isLoading == old(isLoading)
    {
      effect := Stay;
      match data {
        case Sealed(d) =>
          successMessage := Get(d, "message");
          if Get(d, "message") == Str(LoginSuccessful) {
            WriteSession(storage, d);
            effect := GoTo("/admin");
          } else {
            effect := Reload;
          }
        case Unreadable =>
          errorMessage := Str("Login error");
      }
    }

    /**
     * A rejection: its decrypted message, or "Login error" when it carries
     * none; the not-verified message stores the entered email and goes to
     * `/admin/verify`.
     */
    method AfterRejection(storage: LocalStorage, sealed: Option<Cipher>) returns (effect: Effect)
      modifies this, storage
      ensures sealed.None? ==>
        errorMessage == Str("Login error") && storage.items == old(storage.items) && effect == Stay
      ensures sealed.Some? && sealed.value.Sealed? ==>
        var m := Get(sealed.value.plain, "message");
        errorMessage == m &&
        (m == Str(NotVerified) ==>
          storage.items == old(storage.items)["emailid" := ToText(Get(old(credentials), "email"))] &&
          effect == GoTo("/admin/verify")) &&
        (m != Str(NotVerified) ==> storage.items == old(storage.items) && effect == Stay)
      ensures sealed == Some(Unreadable) ==>
        errorMessage == old(errorMessage) && storage.items == old(storage.items) && effect == Stay
      ensures successMessage == old(successMessage)
      ensures credentials == old(credentials) && recaptchaToken == old(recaptchaToken)
      ensures passwordVisible == old(passwordVisible) && isLoading == old(isLoading)
    {
      effect := Stay;
      var text := RejectionText(sealed, "Login error");
      if text.Some? {
        errorMessage := text.value;
        if text.value == Str(NotVerified) {
          storage.SetItem("emailid", ToText(Get(credentials, "email")));
          effect := GoTo("/admin/verify");
        }
      }
    }
  }

  /** The five `setItem` calls, in order. */
  method WriteSession(storage: LocalStorage, d: Obj)
    modifies storage
    ensures storage.items == StoreSession(old(storage.items), d)
  {
    storage.SetItem("token", ToText(Get(d, "token")));
    storage.SetItem("userid", ToText(Get(d, "id")));
    storage.SetItem("emailid", ToText(Get(d, "email")));
    storage.SetItem("mobileno", ToText(Get(d, "mobile")));
    storage.SetItem("name", ToText(Get(d, "name")));
  }
}
