/**
 * The reset-password screen: the code field seeded from the route or from a
 * verified deep-link token, the ordered form checks, the reset request and
 * the delayed return to the login screen.
 */
module ResetPassword {

  import opened Common
  import opened Js
  import opened Http
  import opened Validation

  const BadToken := "Token không hợp lệ hoặc đã hết hạn."
  const FillEverything := "Vui lòng nhập đầy đủ thông tin"
  const TooShort := "Mật khẩu phải có ít nhất 6 ký tự"
  const Mismatch := "Mật khẩu xác nhận không khớp"
  const BadCode := "Mã xác thực không hợp lệ hoặc đã hết hạn."
  const TryLater := "Đã xảy ra lỗi. Vui lòng thử lại sau."

  /** `route.params?.code || ''` */
  function RouteCode(params: Json): Json
  {
    Or(Get(params, "code"), Str(""))
  }

  /** Some field left empty: the code is tested for truthiness, the passwords for emptiness. */
  predicate MissingField(code: Json, password: string, confirm: string)
  {
    !Truthy(code) || password == "" || confirm == ""
  }

  /**
   * The validation part of `handleResetPassword`: the first failing check's
   * message, in the order missing field, short password, mismatch.
   */
  function FormError(code: Json, password: string, confirm: string): (e: Option<string>)
    ensures e == Some(FillEverything) <==> MissingField(code, password, confirm)
    ensures e == Some(TooShort) <==> !MissingField(code, password, confirm) && !IsValidPassword(password)
    ensures e == Some(Mismatch) <==> !MissingField(code, password, confirm) && IsValidPassword(password) && password != confirm
    ensures e.None? <==> Truthy(code) && IsValidPassword(password) && confirm == password
  {
    if MissingField(code, password, confirm) then Some(FillEverything)
    else if !IsValidPassword(password) then Some(TooShort)
    else if password != confirm then Some(Mismatch)
    else None
  }

  /** A matching pair that is long enough is never refused for its length or for a mismatch. */
  lemma LongMatchingPairPasses(code: Json, password: string)
    requires Truthy(code) && |password| >= 6
    ensures FormError(code, password, password).None?
  {
    SixCharactersSuffice(password);
  }

  /** An empty confirmation is reported as a missing field, even next to a too-short password. */
  lemma MissingBeforeShort(code: Json, password: string)
    ensures FormError(code, password, "") == Some(FillEverything)
  {
  }

  /**
   * The message a rejected reset request sets. `None` when the response
   * carries no data: reading `message` of it throws inside the handler.
   */
  function RejectionMessage(r: Reply): (m: Option<Json>)
    ensures r.Network? ==> m == Some(Str(TryLater))
    ensures m.None? <==> r.Response? && Nullish(r.body)
    ensures m.Some? ==> Truthy(m.value)
    ensures r.Response? && Truthy(ServerMessage(r)) ==> m == Some(ServerMessage(r))
    ensures r.Response? && !Nullish(r.body) && !Truthy(ServerMessage(r)) ==> m == Some(Str(BadCode))
  {
    if !HasResponse(r) then Some(Str(TryLater))
    else if Nullish(r.body) then None
    else Some(Or(Get(r.body, "message"), Str(BadCode)))
  }

  /** The body of the reset request. */
  datatype ResetRequest = ResetRequest(code: Json, password: string)

  class ResetPasswordSession {
    /** The code the route opened the screen with, `''` when absent. */
    const resetCode: Json
    var codeInput: Json
    var password: string
    var confirmPassword: string
    var loading: bool
    var success: bool
    /** `Null` when no message is shown. */
    var errorMessage: Json
    /** The timer that returns to the login screen after a successful reset. */
    var loginTimerPending: bool

    /** The code field starts as the route code. */
    constructor (params: Json)
      ensures resetCode == RouteCode(params) && codeInput == resetCode
      ensures password == "" && confirmPassword == "" && !loading && !success && errorMessage == Null && !loginTimerPending
    {
      resetCode := RouteCode(params);
      codeInput := RouteCode(params);
      password := "";
      confirmPassword := "";
      loading := false;
      success := false;
      errorMessage := Null;
      loginTimerPending := false;
    }

    /** The screen raises the "code not found" alert on every render while the route code is falsy. */
    function ShowsMissingCodeAlert(): bool
    {
      !Truthy(resetCode)
    }

    method EditCode(text: string)
      modifies this`codeInput
      ensures codeInput == Str(text)
    {
      codeInput := Str(text);
    }

    method EditPassword(text: string)
      modifies this`password
      ensures password == text
    {
      password := text;
    }

    method EditConfirm(text: string)
      modifies this`confirmPassword
      ensures confirmPassword == text
    {
      confirmPassword := text;
    }

    /**
     * `verifyToken`, with the server's reply taken as a parameter: nothing
     * happens without a token; a successful reply replaces the code only when
     * it carries a truthy `code`; a rejected one sets the token message.
     */
    method VerifyToken(token: Json, reply: Reply) returns (request: Option<Json>)
      modifies this`codeInput, this`errorMessage
      ensures request.Some? <==> Truthy(token)
      ensures request.Some? ==> request.value == token
      ensures !Truthy(token) ==> codeInput == old(codeInput) && errorMessage == old(errorMessage)
      ensures Truthy(token) && Ok(reply) ==> errorMessage == old(errorMessage)
      ensures Truthy(token) && Ok(reply) && Truthy(reply.body) && Truthy(Get(reply.body, "code")) ==> codeInput == Get(reply.body, "code")
      ensures Truthy(token) && Ok(reply) && !(Truthy(reply.body) && Truthy(Get(reply.body, "code"))) ==> codeInput == old(codeInput)
      ensures Truthy(token) && !Ok(reply) ==> codeInput == old(codeInput) && errorMessage == Str(BadToken)
    {
      if !Truthy(token) {
        return None;
      }
      request := Some(token);
      if !Ok(reply) {
        errorMessage := Str(BadToken);
        return;
      }
      if Truthy(reply.body) && Truthy(Get(reply.body, "code")) {
        codeInput := Get(reply.body, "code");
      }
    }

    /**
     * The synchronous part of `handleResetPassword`: the message is cleared,
     * the first failing check sets its message and stops; otherwise the
     * request carries the code field and the password.
     */
    method ResetPassword() returns (request: Option<ResetRequest>)
      modifies this`errorMessage, this`loading
      ensures request.Some? <==> FormError(codeInput, password, confirmPassword).None?
      ensures request.Some? ==> request.value == ResetRequest(codeInput, password) && errorMessage == Null && loading
      ensures request.None? ==> errorMessage == Str(FormError(codeInput, password, confirmPassword).value) && loading == old(loading)
    {
      errorMessage := Null;
      if !Truthy(codeInput) || password == "" || confirmPassword == "" {
        errorMessage := Str(FillEverything);
        return None;
      }
      if !IsValidPassword(password) {
        errorMessage := Str(TooShort);
        return None;
      }
      if password != confirmPassword {
        errorMessage := Str(Mismatch);
        return None;
      }
      loading := true;
      request := Some(ResetRequest(codeInput, password));
    }

    /** The rest of `handleResetPassword`, once the request settles. */
    method ResetReply(reply: Reply)
      requires loading
      modifies this`success, this`errorMessage, this`loading, this`loginTimerPending
      ensures !loading
      ensures success == (old(success) || Ok(reply))
      ensures loginTimerPending == (old(loginTimerPending) || Ok(reply))
      ensures Ok(reply) || RejectionMessage(reply).None? ==> errorMessage == old(errorMessage)
      ensures !Ok(reply) && RejectionMessage(reply).Some? ==> errorMessage == RejectionMessage(reply).value
    {
      if Ok(reply) {
        success := true;
        loginTimerPending := true;
      } else {
        var message := RejectionMessage(reply);
        if message.Some? {
          errorMessage := message.value;
        }
      }
      loading := false;
    }

    /** The two-second timer firing: it opens the login screen once. */
    method FireLoginTimer() returns (toLogin: bool)
      modifies this`loginTimerPending
      ensures toLogin == old(loginTimerPending) && !loginTimerPending
    {
      toLogin := loginTimerPending;
      loginTimerPending := false;
    }
  }
}
