/**
 * The registration form of src/pages/Register.jsx: the username validator with its fixed error
 * precedence, the live username check, and the order of checks on submit. The `register` call
 * is the abstract `AuthResult` it resolves to; navigation is returned as the path requested.
 */
module Register {
  import opened Wrappers

  const CharsetMessage: string := "Username can only contain letters and numbers"
  const TooShortMessage: string := "Username must be at least 3 characters long"
  const TooLongMessage: string := "Username must be at most 15 characters long"
  const MismatchMessage: string := "Passwords do not match"
  const ShortPasswordMessage: string := "Password must be at least 6 characters long"

  const MinUsername: nat := 3
  const MaxUsername: nat := 15
  const MinPassword: nat := 6

  predicate IsAsciiAlnum(c: char) {
    'a' <= c <= 'z' || 'A' <= c <= 'Z' || '0' <= c <= '9'
  }

  /** `/^[a-zA-Z0-9]+$/.test(u)`, matched character by character as the regular expression does. */
  predicate MatchesCharset(u: string) {
    u != [] && IsAsciiAlnum(u[0]) && (|u| == 1 || MatchesCharset(u[1..]))
  }

  lemma {:induction false} MatchesCharsetMeaning(u: string)
    ensures MatchesCharset(u) <==> u != [] && forall i :: 0 <= i < |u| ==> IsAsciiAlnum(u[i])
  {
    if |u| > 1 {
      MatchesCharsetMeaning(u[1..]);
      assert forall i :: 1 <= i < |u| ==> u[i] == u[1..][i - 1];
    }
  }

  /**
   * `validateUsername`: no message exactly for 3 to 15 ASCII letters and digits; otherwise the
   * charset message first (so also for the empty name), then too short, then too long.
   */
  function ValidateUsername(u: string): (r: Option<string>)
    ensures r.None? <==> (forall i :: 0 <= i < |u| ==> IsAsciiAlnum(u[i])) && MinUsername <= |u| <= MaxUsername
    ensures r == Some(CharsetMessage) <==> u == [] || exists i :: 0 <= i < |u| && !IsAsciiAlnum(u[i])
    ensures r == Some(TooShortMessage) <==> u != [] && (forall i :: 0 <= i < |u| ==> IsAsciiAlnum(u[i])) && |u| < MinUsername
    ensures r == Some(TooLongMessage) <==> (forall i :: 0 <= i < |u| ==> IsAsciiAlnum(u[i])) && |u| > MaxUsername
  {
    MatchesCharsetMeaning(u);
    if !MatchesCharset(u) then Some(CharsetMessage)
    else if |u| < MinUsername then Some(TooShortMessage)
    else if |u| > MaxUsername then Some(TooLongMessage)
    else None
  }

  /** How `handleSubmit` ends before the `register` call, or that it makes the call. */
  datatype Verdict = UsernameRejected(message: string) | PasswordRejected(message: string) | Proceed

  /** The checks of `handleSubmit` in their order: username, password match, password length. */
  function CheckSubmit(username: string, password: string, confirm: string): (v: Verdict)
    ensures v == Proceed <==> ValidateUsername(username).None? && password == confirm && |password| >= MinPassword
    ensures ValidateUsername(username).Some? ==> v == UsernameRejected(ValidateUsername(username).value)
    ensures ValidateUsername(username).None? && password != confirm ==> v == PasswordRejected(MismatchMessage)
    ensures ValidateUsername(username).None? && password == confirm && |password| < MinPassword ==>
              v == PasswordRejected(ShortPasswordMessage)
  {
    var nameError := ValidateUsername(username);
    if nameError.Some? then UsernameRejected(nameError.value)
    else if password != confirm then PasswordRejected(MismatchMessage)
    else if |password| < MinPassword then PasswordRejected(ShortPasswordMessage)
    else Proceed
  }

  /** The empty name gets the charset message, not the too-short one. */
  lemma EmptyUsernameIsCharsetError()
    ensures ValidateUsername("") == Some(CharsetMessage)
  {
  }

  /** A mismatch is reported even when both passwords are also too short. */
  lemma MismatchBeforeLength()
    ensures CheckSubmit("alice", "abc", "abd") == PasswordRejected(MismatchMessage)
  {
    assert ValidateUsername("alice").None? by {
      assert forall i :: 0 <= i < 5 ==> IsAsciiAlnum("alice"[i]);
    }
  }

  datatype Credentials = Credentials(username: string, password: string)

  /** What `register` resolves to. */
  datatype AuthResult = AuthResult(success: bool, message: string)

  class RegisterForm {
    var username: string
    var password: string
    var confirmPassword: string
    var error: string
    var usernameError: string
    var loading: bool

    constructor ()
      ensures username == password == confirmPassword == error == usernameError == "" && !loading
    {
      username, password, confirmPassword := "", "", "";
      error, usernameError := "", "";
      loading := false;
    }

    /** `handleUsernameChange`: store the value and show its validation message, or none. */
    method UsernameChanged(v: string)
      modifies this`username, this`usernameError
      ensures username == v
      ensures usernameError == ValidateUsername(v).GetOr("")
      ensures usernameError == "" <==> ValidateUsername(v).None?
    {
      username := v;
      var message := ValidateUsername(v);
      usernameError := message.GetOr("");
    }

    method PasswordChanged(v: string)
      modifies this`password
      ensures password == v
    {
      password := v;
    }

    method ConfirmChanged(v: string)
      modifies this`confirmPassword
      ensures confirmPassword == v
    {
      confirmPassword := v;
    }

    /**
     * `handleSubmit` up to the `register` call: clear `error`, run the checks in order, and on
     * success set `loading` and return the credentials passed to `register`.
     */
    method Submit() returns (call: Option<Credentials>)
      modifies this`error, this`usernameError, this`loading
      ensures var v := CheckSubmit(username, password, confirmPassword);
              && (call.Some? <==> v == Proceed)
              && (call.Some? ==> call.value == Credentials(username, password) && loading && error == "")
              && (v.UsernameRejected? ==> usernameError == v.message && error == "" && loading == old(loading))
              && (v.PasswordRejected? ==> error == v.message && loading == old(loading))
              && (!v.UsernameRejected? ==> usernameError == old(usernameError))
    {
      error := "";
      var nameError := ValidateUsername(username);
      if nameError.Some? {
        usernameError := nameError.value;
        return None;
      }
      if password != confirmPassword {
        error := MismatchMessage;
        return None;
      }
      if |password| < MinPassword {
        error := ShortPasswordMessage;
        return None;
      }
      loading := true;
      call := Some(Credentials(username, password));
    }

    /** `register` resolved: navigate home on success, else show its message; loading ends. */
    method Registered(result: AuthResult) returns (navigateTo: Option<string>)
      modifies this`error, this`loading
      ensures !loading
      ensures result.success ==> navigateTo == Some("/") && error == old(error)
      ensures !result.success ==> navigateTo == None && error == result.message
    {
      if result.success {
        navigateTo := Some("/");
      } else {
        navigateTo := None;
        error := result.message;
      }
      loading := false;
    }
  }
}
