/**
 * The password recovery page (frontend/src/pages/Contact.jsx): a "request"
 * step that asks the server to send a reset link, and a "reset" step that
 * validates the new password before posting it. Server answers are inputs;
 * each handler returns the request it sends (if any) and the toast it shows.
 */
module Contact {
  import opened Wrappers
  import opened Text

  datatype Step = Request | Reset

  /** What axios yields: a reply (`response.data`), or a rejection with an optional server message. */
  datatype Answer =
    | Replied(success: bool, message: String, resetToken: String)
    | Rejected(serverMessage: String, errorMessage: String)

  /** `error.response?.data?.message || error.message` */
  function RejectionNotice(serverMessage: String, errorMessage: String): (r: String)
    ensures serverMessage != "" ==> r == serverMessage
    ensures serverMessage == "" ==> r == errorMessage
  {
    if serverMessage != "" then serverMessage else errorMessage
  }

  /** The step the page opens on: "reset" exactly when the link carried a token. */
  function InitialStep(tokenParam: Option<String>): (s: Step)
    ensures s == Reset <==> tokenParam.Some? && tokenParam.value != ""
  {
    if tokenParam.Some? && tokenParam.value != "" then Reset else Request
  }

  /**
   * The reset form's checks in their order: a missing field, then a
   * mismatch, then a password shorter than 6; None lets the form post.
   */
  function ValidateReset(newPassword: String, confirmPassword: String): (r: Option<String>)
    ensures r == Some("Please fill in all fields") <==> newPassword == "" || confirmPassword == ""
    ensures r == Some("Passwords do not match") <==>
      newPassword != "" && confirmPassword != "" && newPassword != confirmPassword
    ensures r == Some("Password must be at least 6 characters") <==>
      newPassword != "" && newPassword == confirmPassword && |newPassword| < 6
    ensures r.None? <==> newPassword == confirmPassword && |newPassword| >= 6
  {
    if newPassword == "" || confirmPassword == "" then Some("Please fill in all fields")
    else if newPassword != confirmPassword then Some("Passwords do not match")
    else if |newPassword| < 6 then Some("Password must be at least 6 characters")
    else None
  }

  /** A handler's effect outside the state: the request it posts, the toast, and a redirect to login. */
  datatype Outcome<R> = Outcome(posted: Option<R>, notice: String, toLogin: bool)

  class RecoveryPage {
    var step: Step
    var email: String
    var resetToken: String
    var newPassword: String
    var confirmPassword: String
    var loading: bool

    /** Mounting the page, with the `token` search parameter if the link had one. */
    constructor (tokenParam: Option<String>)
      ensures step == InitialStep(tokenParam)
      ensures step == Reset ==> resetToken == tokenParam.value
      ensures step == Request ==> resetToken == ""
      ensures email == "" && newPassword == "" && confirmPassword == "" && !loading
    {
      step := InitialStep(tokenParam);
      resetToken := if tokenParam.Some? && tokenParam.value != "" then tokenParam.value else "";
      email := "";
      newPassword := "";
      confirmPassword := "";
      loading := false;
    }

    method EditEmail(value: String)
      modifies this`email
      ensures email == value
    {
      email := value;
    }

    method EditNewPassword(value: String)
      modifies this`newPassword
      ensures newPassword == value
    {
      newPassword := value;
    }

    method EditConfirmPassword(value: String)
      modifies this`confirmPassword
      ensures confirmPassword == value
    {
      confirmPassword := value;
    }

    /**
     * `handleForgotPassword`: an empty email fails before any request; a
     * success clears the email and moves to "reset" only when the reply
     * carries a token.
     */
    method SubmitRequest(answer: Answer) returns (out: Outcome<String>)
      modifies this`email, this`resetToken, this`step, this`loading
      ensures old(email) == "" ==>
        (out == Outcome(None, "Please enter your email", false) &&
         email == old(email) && resetToken == old(resetToken) && step == old(step))
      ensures old(email) != "" ==> out.posted == Some(old(email)) && !out.toLogin
      ensures old(email) != "" && answer.Replied? && answer.success ==>
        (out.notice == "Reset link sent to your email!" && email == "" &&
         (answer.resetToken != "" ==> step == Reset && resetToken == answer.resetToken) &&
         (answer.resetToken == "" ==> step == old(step) && resetToken == old(resetToken)))
      ensures old(email) != "" && answer.Replied? && !answer.success ==>
        (out.notice == answer.message && email == old(email) && step == old(step) && resetToken == old(resetToken))
      ensures old(email) != "" && answer.Rejected? ==>
        (out.notice == RejectionNotice(answer.serverMessage, answer.errorMessage) &&
         email == old(email) && step == old(step) && resetToken == old(resetToken))
      ensures !loading
    {
      loading := true;
      if email == "" {
        out := Outcome(None, "Please enter your email", false);
      } else {
        var sent := email;
        match answer
        case Replied(success, message, token) =>
          if success {
            if token != "" {
              resetToken := token;
              step := Reset;
            }
            email := "";
            out := Outcome(Some(sent), "Reset link sent to your email!", false);
          } else {
            out := Outcome(Some(sent), message, false);
          }
        case Rejected(serverMessage, errorMessage) =>
          out := Outcome(Some(sent), RejectionNotice(serverMessage, errorMessage), false);
      }
      loading := false;
    }

    /**
     * `handleResetPassword`: input failing a check is never posted; input
     * passing all three posts the token and the new password, and a success
     * leads to the login page.
     */
    method SubmitReset(answer: Answer) returns (out: Outcome<(String, String)>)
      modifies this`loading
      ensures ValidateReset(newPassword, confirmPassword).Some? ==>
        out == Outcome(None, ValidateReset(newPassword, confirmPassword).value, false)
      ensures ValidateReset(newPassword, confirmPassword).None? ==> out.posted == Some((resetToken, newPassword))
      ensures out.toLogin <==>
        ValidateReset(newPassword, confirmPassword).None? && answer.Replied? && answer.success
      ensures !loading
    {
      loading := true;
      var problem := ValidateReset(newPassword, confirmPassword);
      if problem.Some? {
        out := Outcome(None, problem.value, false);
      } else {
        var request := (resetToken, newPassword);
        match answer
        case Replied(success, message, _) =>
          if success {
            out := Outcome(Some(request), "Password reset successfully! Redirecting...", true);
          } else {
            out := Outcome(Some(request), message, false);
          }
        case Rejected(serverMessage, errorMessage) =>
          out := Outcome(Some(request), RejectionNotice(serverMessage, errorMessage), false);
      }
      loading := false;
    }

    /** "Back": from "request" to the login page, from "reset" back to "request". */
    method Back() returns (toLogin: bool)
      modifies this`step
      ensures toLogin <==> old(step) == Request
      ensures step == Request
    {
      toLogin := step == Request;
      step := Request;
    }
  }

  /** A visitor who opens a reset link and types a matching 6-character password posts it with the link's token. */
  method ResetFromLink(token: String, password: String) returns (out: Outcome<(String, String)>)
    requires token != "" && |password| == 6
    ensures out.posted == Some((token, password))
  {
    var page := new RecoveryPage(Some(token));
    page.EditNewPassword(password);
    page.EditConfirmPassword(password);
    out := page.SubmitReset(Replied(true, "", ""));
  }
}
