/**
 * handleRegister (screens/RegisterScreen.js): an empty email or password is
 * reported first, then a password that differs from its confirmation;
 * otherwise registration succeeds and the app navigates to the login screen.
 * The alerts and the navigation are the outcome values.
 */
module RegisterScreen {

  datatype RegisterOutcome =
    | MissingCredentials  // "Lütfen email ve şifre girin."
    | PasswordMismatch    // "Şifreler uyuşmuyor!"
    | Registered          // success alert, then navigation to LoginScreen

  function HandleRegister(email: string, password: string, confirmPassword: string): (r: RegisterOutcome)
    ensures r == MissingCredentials <==> email == "" || password == ""
    ensures r == PasswordMismatch <==> email != "" && password != "" && password != confirmPassword
    ensures r == Registered <==> email != "" && password != "" && password == confirmPassword
  {
    if email == "" || password == "" then MissingCredentials
    else if password != confirmPassword then PasswordMismatch
    else Registered
  }

  /** The emptiness check comes first: an empty field is reported even when the
      passwords also differ, and the confirmation is then never looked at. */
  lemma EmptinessTakesPrecedence(email: string, password: string, c1: string, c2: string)
    requires email == "" || password == ""
    ensures HandleRegister(email, password, c1) == HandleRegister(email, password, c2) == MissingCredentials
  {
  }
}
