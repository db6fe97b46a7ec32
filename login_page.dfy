/**
 * The login form's rules (src/app/login/page.tsx): the password length
 * rule of `loginSchema` and the messages shown for the authentication
 * provider's error codes. The sign-in call itself and the e-mail pattern
 * belong to external libraries and are not modelled.
 */
module LoginPage {
  import opened Optional

  /** `z.string().min(6)`. */
  const MinPasswordLength: nat := 6
  const PasswordTooShort: string := "Password must be at least 6 characters."

  const InvalidCredentials: string := "Invalid email or password. Please try again."
  const InvalidEmail: string := "Please enter a valid email address."
  const AccountDisabled: string := "This account has been disabled."
  const Unexpected: string := "An unexpected error occurred. Please try again."

  /** The password field's validation: no error, or the form message. */
  function PasswordError(password: string): (r: Option<string>)
    ensures r.None? <==> |password| >= MinPasswordLength
    ensures r.Some? ==> r.value == PasswordTooShort
  {
    if |password| < MinPasswordLength then Some(PasswordTooShort) else None
  }

  /** The `switch (authError.code)` in `onSubmit`. */
  function AuthErrorMessage(code: string): (message: string)
  {
    match code
    case "auth/user-not-found" => InvalidCredentials
    case "auth/wrong-password" => InvalidCredentials
    case "auth/invalid-credential" => InvalidCredentials
    case "auth/invalid-email" => InvalidEmail
    case "auth/user-disabled" => AccountDisabled
    case _ => Unexpected
  }

  /** Each message is reached by exactly its codes: the three credential
      codes share one message and every unknown code gets the default. */
  lemma AuthErrorMessageCases(code: string)
    ensures AuthErrorMessage(code) == InvalidCredentials <==>
      code in {"auth/user-not-found", "auth/wrong-password", "auth/invalid-credential"}
    ensures AuthErrorMessage(code) == InvalidEmail <==> code == "auth/invalid-email"
    ensures AuthErrorMessage(code) == AccountDisabled <==> code == "auth/user-disabled"
    ensures AuthErrorMessage(code) == Unexpected <==>
      code !in {"auth/user-not-found", "auth/wrong-password", "auth/invalid-credential",
                "auth/invalid-email", "auth/user-disabled"}
  {
  }
}
