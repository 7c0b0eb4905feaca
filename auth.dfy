/**
 * The sign-in / sign-up form: the validation run on submit, which either
 * sets an error message or reports success to the caller, and the switch
 * between the two modes.
 */
module Auth {

  const FillAllFields: string := "Please fill in all fields"
  const InvalidEmail: string := "Please enter a valid email address"
  const PasswordTooShort: string := "Password must be at least 6 characters long"

  /** The minimum password length, counted as JavaScript counts it. */
  const MinPasswordLength: nat := 6

  datatype Outcome = Rejected(message: string) | Accepted

  /** JavaScript's `s.length`: UTF-16 code units, two for a character beyond U+FFFF. */
  function Utf16Length(s: string): (n: nat)
    ensures |s| <= n <= 2 * |s|
    decreases |s|
  {
    if s == [] then 0 else (if s[0] as int > 0xFFFF then 2 else 1) + Utf16Length(s[1..])
  }

  /** For text within the Basic Multilingual Plane the two lengths agree. */
  lemma {:induction false} Utf16LengthBmp(s: string)
    requires forall k :: 0 <= k < |s| ==> s[k] as int <= 0xFFFF
    ensures Utf16Length(s) == |s|
    decreases |s|
  {
    if s != [] {
      Utf16LengthBmp(s[1..]);
    }
  }

  /** One character counts one code unit, or two when it lies beyond U+FFFF. */
  lemma Utf16LengthChar(c: char)
    ensures Utf16Length([c]) == if c as int > 0xFFFF then 2 else 1
  {
  }

  /** Code units add up over concatenation. */
  lemma {:induction false} Utf16LengthConcat(a: string, b: string)
    ensures Utf16Length(a + b) == Utf16Length(a) + Utf16Length(b)
    decreases |a|
  {
    if a == [] {
      assert a + b == b;
    } else {
      assert (a + b)[1..] == a[1..] + b;
      Utf16LengthConcat(a[1..], b);
    }
  }

  /** Text made only of characters beyond U+FFFF (emoji, say) counts two code units each. */
  lemma {:induction false} Utf16LengthAstral(s: string)
    requires forall k :: 0 <= k < |s| ==> s[k] as int > 0xFFFF
    ensures Utf16Length(s) == 2 * |s|
    decreases |s|
  {
    if s != [] {
      Utf16LengthAstral(s[1..]);
    }
  }

  /**
   * The checks of `handleSubmit`, in their order: both fields filled, an `@`
   * in the email, a long enough password.
   */
  function Validate(email: string, password: string): (r: Outcome)
    ensures r.Accepted? <==> email != "" && '@' in email && Utf16Length(password) >= MinPasswordLength
    ensures email == "" || password == "" ==> r == Rejected(FillAllFields)
    ensures email != "" && password != "" && '@' !in email ==> r == Rejected(InvalidEmail)
    ensures email != "" && '@' in email && 0 < Utf16Length(password) < MinPasswordLength ==>
      r == Rejected(PasswordTooShort)
  {
    if email != "" && password != "" then
      if '@' !in email then Rejected(InvalidEmail)
      else if Utf16Length(password) < MinPasswordLength then Rejected(PasswordTooShort)
      else Accepted
    else Rejected(FillAllFields)
  }

  /** A rejection always shows a message, so an error is visible exactly when success is not reported. */
  lemma RejectionIsVisible(email: string, password: string)
    ensures Validate(email, password).Rejected? ==> Validate(email, password).message != ""
    ensures Validate(email, password).Rejected? ==>
      Validate(email, password).message in {FillAllFields, InvalidEmail, PasswordTooShort}
  {
  }

  /** A password of six BMP characters passes, one of five does not. */
  lemma PasswordBoundary(email: string, password: string)
    requires email != "" && '@' in email
    requires forall k :: 0 <= k < |password| ==> password[k] as int <= 0xFFFF
    ensures Validate(email, password).Accepted? <==> |password| >= 6
  {
    Utf16LengthBmp(password);
  }

  /** A password of three characters beyond U+FFFF passes, one of two does not. */
  lemma AstralPasswordBoundary(email: string, password: string)
    requires email != "" && '@' in email
    requires forall k :: 0 <= k < |password| ==> password[k] as int > 0xFFFF
    ensures Validate(email, password).Accepted? <==> |password| >= 3
  {
    Utf16LengthAstral(password);
  }

  class AuthPage {
    var isLogin: bool
    var email: string
    var password: string
    var error: string

    constructor ()
      ensures isLogin && email == "" && password == "" && error == ""
    {
      isLogin := true;
      email := "";
      password := "";
      error := "";
    }

    method SetEmail(value: string)
      modifies this`email
      ensures email == value
    {
      email := value;
    }

    method SetPassword(value: string)
      modifies this`password
      ensures password == value
    {
      password := value;
    }

    /**
     * `handleSubmit`: the error is cleared, then set by the first failing
     * check; `authSucceeded` stands for the call to `onAuthSuccess`. The
     * mode plays no part.
     */
    method HandleSubmit() returns (authSucceeded: bool)
      modifies this`error
      ensures authSucceeded <==> Validate(email, password).Accepted?
      ensures authSucceeded ==> error == ""
      ensures !authSucceeded ==> error == Validate(email, password).message
      ensures error == "" <==> authSucceeded
    {
      error := "";
      var outcome := Validate(email, password);
      RejectionIsVisible(email, password);
      match outcome
      case Rejected(message) =>
        error := message;
        authSucceeded := false;
      case Accepted =>
        authSucceeded := true;
    }

    /** The link under the form switches between sign-in and sign-up. */
    method ToggleMode()
      modifies this`isLogin
      ensures isLogin == !old(isLogin)
    {
      isLogin := !isLogin;
    }
  }
}
