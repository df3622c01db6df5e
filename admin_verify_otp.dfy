/**
 * The OTP screen reached after signup or after logging in to an unverified
 * account. It sends the stored email, the typed OTP and the reCAPTCHA token
 * encrypted, and on "Login successful" replaces the whole of storage with
 * the new session.
 */
module AdminVerifyOtp {
  import opened Wrappers
  import opened Json
  import opened Text
  import opened Storage
  import opened Session

  const VerifyPath := "/moox_events/api/auth/verify-otp"
  const OtpLength := 6

  /**
   * What the OTP field holds after the user types `typed`: the browser keeps
   * at most six characters and the input handler strips every non-digit.
   */
  function OtpEntry(typed: string): (r: string)
    ensures AllDigits(r) && |r| <= OtpLength
    ensures AllDigits(typed) && |typed| <= OtpLength ==> r == typed
  {
    var kept := if |typed| <= OtpLength then typed else typed[..OtpLength];
    assert AllDigits(kept) ==> KeepDigits(kept) == kept by {
      if AllDigits(kept) {
        KeepDigitsOfDigits(kept);
      }
    }
    KeepDigits(kept)
  }

  class VerifyOtp {
    var otpData: Obj
    var errorMessage: Value
    var successMessage: Value
    var isLoading: bool

    /** The email comes from storage once, when the screen mounts. */
    constructor (storage: LocalStorage)
      ensures otpData == map["email" := OfStored(storage.GetItem("emailid")), "otp" := Str(""), "recaptchaToken" := Str("")]
      ensures errorMessage == Str("") && successMessage == Str("") && !isLoading
    {
      otpData := map["email" := OfStored(storage.GetItem("emailid")), "otp" := Str(""), "recaptchaToken" := Str("")];
      errorMessage, successMessage, isLoading := Str(""), Str(""), false;
    }

    /** The submit button is enabled only with a token and while idle. */
    predicate SubmitEnabled()
      reads this
    {
      Truthy(Get(otpData, "recaptchaToken")) && !isLoading
    }

    /** `handleChange` for the OTP input, after its input filter. */
    method HandleOtpChange(typed: string)
      modifies this
      ensures otpData == old(otpData)["otp" := Str(OtpEntry(typed))]
      ensures AllDigits(OtpEntry(typed)) && |OtpEntry(typed)| <= OtpLength
      ensures errorMessage == old(errorMessage) && successMessage == old(successMessage) && isLoading == old(isLoading)
    {
      otpData := otpData["otp" := Str(OtpEntry(typed))];
    }

    /** `handleRecaptchaChange`: only the token changes. */
    method HandleRecaptchaChange(token: Value)
      modifies this
      ensures otpData == old(otpData)["recaptchaToken" := token]
      ensures errorMessage == old(errorMessage) && successMessage == old(successMessage) && isLoading == old(isLoading)
      ensures SubmitEnabled() <==> Truthy(token) && !isLoading
    {
      otpData := otpData["recaptchaToken" := token];
    }

    /**
     * `handleVerify`. "Login successful": storage holds exactly the new
     * session and the browser goes to `/admin`; any other answer reloads and
     * leaves storage alone. Rejected: the decrypted message, or "OTP
     * verification error", is shown. Loading ends false on every path.
     */
    method HandleVerify(storage: LocalStorage, reply: AuthReply) returns (sent: SealedPost, effect: Effect)
      modifies this, storage
      ensures sent == SealedPost(VerifyPath, old(otpData))
      ensures !isLoading && otpData == old(otpData)
      ensures reply.Answered? && reply.data.Sealed? ==>
        var d := reply.data.plain;
        successMessage == Get(d, "message") && errorMessage == Str("") &&
        (Get(d, "message") == Str(LoginSuccessful) ==>
          storage.items == StoreSession(map[], d) && effect == GoTo("/admin")) &&
        (Get(d, "message") != Str(LoginSuccessful) ==> storage.items == old(storage.items) && effect == Reload)
      ensures reply == Answered(Unreadable) || reply == Rejected(None) ==>
        errorMessage == Str("OTP verification error") && successMessage == Str("")
      ensures reply.Rejected? && reply.sealed.Some? && reply.sealed.value.Sealed? ==>
        errorMessage == Get(reply.sealed.value.plain, "message") && successMessage == Str("")
      ensures reply == Rejected(Some(Unreadable)) ==> errorMessage == Str("") && successMessage == Str("")
      ensures !(reply.Answered? && reply.data.Sealed?) ==> storage.items == old(storage.items) && effect == Stay
    {
      errorMessage, successMessage, isLoading := Str(""), Str(""), true;
      effect := Stay;
      sent := SealedPost(VerifyPath, otpData);
      match reply {
        case Answered(Sealed(d)) =>
          successMessage := Get(d, "message");
          if Get(d, "message") == Str(LoginSuccessful) {
            storage.Clear();
            storage.SetItem("token", ToText(Get(d, "token")));
            storage.SetItem("userid", ToText(Get(d, "id")));
            storage.SetItem("emailid", ToText(Get(d, "email")));
            storage.SetItem("mobileno", ToText(Get(d, "mobile")));
            storage.SetItem("name", ToText(Get(d, "name")));
            effect := GoTo("/admin");
          } else {
            effect := Reload;
          }
        case Answered(Unreadable) =>
          errorMessage := Str("OTP verification error");
        case Rejected(sealed) =>
          var text := RejectionText(sealed, "OTP verification error");
          if text.Some? {
            errorMessage := text.value;
          }
      }
      isLoading := false;
    }
  }
}
