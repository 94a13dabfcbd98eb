/**
 * The forgot-password screen: asking the server for a verification code,
 * then handing the typed code on to the reset screen.
 */
module ForgotPassword {

  import opened Common
  import opened Js
  import opened Http
  import opened Validation

  const EnterEmail := "Vui lòng nhập địa chỉ email"
  const BadEmail := "Địa chỉ email không hợp lệ"
  const UnknownEmail := "Email không tồn tại trong hệ thống."
  const TryLater := "Đã xảy ra lỗi. Vui lòng thử lại sau."
  const EnterCode := "Vui lòng nhập mã xác thực"

  /**
   * The message a rejected code request sets: the server's
   * `data.message || fallback`, or a generic text when no response arrived.
   * `None` when the response carries no data at all: reading `message` of it
   * throws inside the handler, and no message is set.
   */
  function RejectionMessage(r: Reply): (m: Option<Json>)
    ensures r.Network? ==> m == Some(Str(TryLater))
    ensures m.None? <==> r.Response? && Nullish(r.body)
    ensures m.Some? ==> Truthy(m.value)
    ensures r.Response? && Truthy(ServerMessage(r)) ==> m == Some(ServerMessage(r))
    ensures r.Response? && !Nullish(r.body) && !Truthy(ServerMessage(r)) ==> m == Some(Str(UnknownEmail))
  {
    if !HasResponse(r) then Some(Str(TryLater))
    else if Nullish(r.body) then None
    else Some(Or(Get(r.body, "message"), Str(UnknownEmail)))
  }

  class ForgotPasswordSession {
    var email: string
    var verificationCode: string
    var loading: bool
    var codeSent: bool
    /** `Null` when no message is shown. */
    var errorMessage: Json

    constructor ()
      ensures email == "" && verificationCode == "" && !loading && !codeSent && errorMessage == Null
    {
      email := "";
      verificationCode := "";
      loading := false;
      codeSent := false;
      errorMessage := Null;
    }

    /** Typing into the e-mail field. */
    method EditEmail(text: string)
      modifies this`email
      ensures email == text
    {
      email := text;
    }

    /** Typing into the code field. */
    method EditCode(text: string)
      modifies this`verificationCode
      ensures verificationCode == text
    {
      verificationCode := text;
    }

    /**
     * The synchronous part of `handleSendCode`: the message is cleared, then a
     * blank address and a malformed one are refused in that order; otherwise
     * the request carries the address exactly as typed.
     */
    method SendCode() returns (request: Option<string>)
      modifies this`errorMessage, this`loading
      ensures request.Some? <==> Trim(email) != "" && MatchesEmailPattern(email)
      ensures request.Some? ==> request.value == email && errorMessage == Null && loading
      ensures Trim(email) == "" ==> errorMessage == Str(EnterEmail) && loading == old(loading)
      ensures Trim(email) != "" && !MatchesEmailPattern(email) ==> errorMessage == Str(BadEmail) && loading == old(loading)
    {
      var trimmed := Trim(email);
      var wellFormed := IsValidEmail(email);
      EmailCheckIsPattern(email);
      errorMessage := Null;
      if trimmed == "" {
        errorMessage := Str(EnterEmail);
        return None;
      }
      if !wellFormed {
        errorMessage := Str(BadEmail);
        return None;
      }
      loading := true;
      request := Some(email);
    }

    /** The rest of `handleSendCode`, once the request settles. */
    method CodeReply(reply: Reply)
      requires loading
      modifies this`errorMessage, this`codeSent, this`loading
      ensures !loading
      ensures codeSent == (old(codeSent) || Ok(reply))
      ensures Ok(reply) || RejectionMessage(reply).None? ==> errorMessage == old(errorMessage)
      ensures !Ok(reply) && RejectionMessage(reply).Some? ==> errorMessage == RejectionMessage(reply).value
    {
      if Ok(reply) {
        codeSent := true;
      } else {
        var message := RejectionMessage(reply);
        if message.Some? {
          errorMessage := message.value;
        }
      }
      loading := false;
    }

    /**
     * `handleVerifyCode`: a blank code is refused; otherwise the reset screen
     * is opened with the code as typed, untrimmed. The message is not cleared.
     */
    method VerifyCode() returns (navigateWith: Option<string>)
      modifies this`errorMessage
      ensures navigateWith.Some? <==> Trim(verificationCode) != ""
      ensures navigateWith.Some? ==> navigateWith.value == verificationCode && errorMessage == old(errorMessage)
      ensures navigateWith.None? ==> errorMessage == Str(EnterCode)
    {
      if Trim(verificationCode) == "" {
        errorMessage := Str(EnterCode);
        return None;
      }
      navigateWith := Some(verificationCode);
    }
  }
}
