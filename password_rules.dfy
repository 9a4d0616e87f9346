/** The password rules shared by the sign-up and update-password forms:
    at least 8 characters, an upper-case letter A-Z, a digit 0-9 and one of
    the symbols `!@#$%^&*(),.?":{}|<>`; the strength score counts the rules
    met, and the meter's colour and label follow from the score. */
module PasswordRules {

  predicate IsUpper(c: char) {
    'A' <= c <= 'Z'
  }

  predicate IsDigit(c: char) {
    '0' <= c <= '9'
  }

  const Symbols: string := "!@#$%^&*(),.?\":{}|<>"

  predicate IsSymbol(c: char) {
    c in Symbols
  }

  /** `/[class]/.test(s)`: some character of `s` is in the class. */
  function AnyChar(s: string, inClass: char -> bool): (found: bool)
    ensures found <==> exists i :: 0 <= i < |s| && inClass(s[i])
  {
    if s == [] then false
    else inClass(s[0]) || (assert forall i :: 0 < i < |s| ==> s[i] == s[1..][i - 1]; AnyChar(s[1..], inClass))
  }

  /** `passwordValidation` */
  datatype Rules = Rules(minLength: bool, hasUppercase: bool, hasNumber: bool, hasSymbol: bool)

  function Validate(password: string): (r: Rules)
    ensures r.minLength <==> |password| >= 8
    ensures r.hasUppercase <==> exists i :: 0 <= i < |password| && IsUpper(password[i])
    ensures r.hasNumber <==> exists i :: 0 <= i < |password| && IsDigit(password[i])
    ensures r.hasSymbol <==> exists i :: 0 <= i < |password| && IsSymbol(password[i])
  {
    Rules(|password| >= 8, AnyChar(password, IsUpper), AnyChar(password, IsDigit), AnyChar(password, IsSymbol))
  }

  /** `isPasswordValid`: every rule holds. */
  predicate IsValid(password: string) {
    var r := Validate(password);
    r.minLength && r.hasUppercase && r.hasNumber && r.hasSymbol
  }

  function Count(b: bool): nat {
    if b then 1 else 0
  }

  /** `passwordStrength`: the number of rules met. */
  function Strength(password: string): (n: nat)
    ensures n <= 4
  {
    var r := Validate(password);
    Count(r.minLength) + Count(r.hasUppercase) + Count(r.hasNumber) + Count(r.hasSymbol)
  }

  /** A password is valid exactly when its strength is full. */
  lemma ValidIffFullStrength(password: string)
    ensures IsValid(password) <==> Strength(password) == 4
  {
  }

  /** `getPasswordStrengthColor()` */
  function StrengthColor(n: nat): string {
    if n == 0 then "bg-gray-200 dark:bg-gray-700"
    else if n <= 2 then "bg-red-500"
    else if n == 3 then "bg-yellow-500"
    else "bg-green-500"
  }

  /** `getPasswordStrengthText()` */
  function StrengthText(n: nat): string {
    if n == 0 then ""
    else if n <= 2 then "Weak"
    else if n == 3 then "Good"
    else "Strong"
  }

  /** `getPasswordStrengthTextColor()` */
  function StrengthTextColor(n: nat): string {
    if n <= 2 then "text-red-600 dark:text-red-400"
    else if n == 3 then "text-yellow-600 dark:text-yellow-400"
    else "text-green-600 dark:text-green-400"
  }

  /** The meter reads "Strong" in green exactly for a valid password, shows
      no label for a password meeting no rule, and "Weak" in red for one or
      two rules. */
  lemma MeterReadings(password: string)
    ensures StrengthText(Strength(password)) == "Strong" <==> IsValid(password)
    ensures StrengthColor(Strength(password)) == "bg-green-500" <==> IsValid(password)
    ensures StrengthText(Strength(password)) == "" <==> Strength(password) == 0
    ensures StrengthText(Strength(password)) == "Weak" <==> 1 <= Strength(password) <= 2
    ensures StrengthText(Strength(password)) == "Weak" ==> StrengthColor(Strength(password)) == "bg-red-500"
  {
  }

  /** `passwordsMatch` */
  predicate PasswordsMatch(password: string, confirmPassword: string) {
    |confirmPassword| > 0 && password == confirmPassword
  }

  /** `passwordsDontMatch` */
  predicate PasswordsDontMatch(password: string, confirmPassword: string) {
    |confirmPassword| > 0 && password != confirmPassword
  }

  /** At most one of the two hints shows, none for an empty confirmation,
      and exactly one otherwise. */
  lemma MatchHints(password: string, confirmPassword: string)
    ensures !(PasswordsMatch(password, confirmPassword) && PasswordsDontMatch(password, confirmPassword))
    ensures confirmPassword == "" ==>
      !PasswordsMatch(password, confirmPassword) && !PasswordsDontMatch(password, confirmPassword)
    ensures confirmPassword != "" ==>
      PasswordsMatch(password, confirmPassword) || PasswordsDontMatch(password, confirmPassword)
  {
  }

  /** A password with an upper-case letter, digits and a symbol is valid. */
  lemma StrongExample()
    ensures IsValid("Tour2024!")
  {
    assert IsUpper("Tour2024!"[0]) && IsDigit("Tour2024!"[4]) && IsSymbol("Tour2024!"[8]);
  }
}
