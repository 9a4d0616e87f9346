/** The license card of an agent's profile: the expiry flags and colour, the
    years-of-experience text, and the edit form with the payload it saves.
    Dates are instants in milliseconds; turning the stored date text into an
    instant is not part of this model, so an expiry date arrives as an
    instant, or as `None` when the stored text is null or empty. */
module AgentLicense {
  import opened Wrappers
  import Text

  const DayMs := 86400000
  const SoonDays := 90

  /** `isExpired`: the expiry instant lies before now. */
  predicate IsExpired(expiresAt: Option<int>, now: int) {
    expiresAt.Some? && expiresAt.value < now
  }

  /** `Math.floor((expiry - today) / 86400000)`; Dafny's `/` floors for a
      positive divisor. */
  function DaysUntil(expiry: int, now: int): int {
    (expiry - now) / DayMs
  }

  /** `isExpiringSoon`: between 1 and 90 whole days are left. */
  predicate IsExpiringSoon(expiresAt: Option<int>, now: int) {
    expiresAt.Some? && 0 < DaysUntil(expiresAt.value, now) <= SoonDays
  }

  /** "Expiring soon" means the expiry falls at least one and less than 91
      days ahead. */
  lemma ExpiringSoonWindow(expiry: int, now: int)
    ensures IsExpiringSoon(Some(expiry), now) <==> now + DayMs <= expiry < now + (SoonDays + 1) * DayMs
  {
    var d := expiry - now;
    var q := d / DayMs;
    assert q * DayMs <= d < q * DayMs + DayMs;
    if 0 < q <= SoonDays {
      assert d >= DayMs by { assert q * DayMs >= DayMs; }
      assert d < (SoonDays + 1) * DayMs by { assert q * DayMs <= SoonDays * DayMs; }
    }
  }

  /** The two flags never show together, and the last day before expiry
      raises neither. */
  lemma ExpiryFlags(expiry: int, now: int)
    ensures !(IsExpired(Some(expiry), now) && IsExpiringSoon(Some(expiry), now))
    ensures now <= expiry < now + DayMs ==> !IsExpired(Some(expiry), now) && !IsExpiringSoon(Some(expiry), now)
  {
    ExpiringSoonWindow(expiry, now);
  }

  const ExpiredColor := "text-error-600 dark:text-error-400"
  const SoonColor := "text-warning-600 dark:text-warning-400"
  const NormalColor := "text-gray-800 dark:text-white/90"

  /** The expiry date's text colour: expired first, then expiring soon. */
  function ExpiryColor(expiresAt: Option<int>, now: int): (color: string)
    ensures color == ExpiredColor <==> IsExpired(expiresAt, now)
    ensures color == SoonColor <==> IsExpiringSoon(expiresAt, now)
    ensures color == NormalColor <==> !IsExpired(expiresAt, now) && !IsExpiringSoon(expiresAt, now)
  {
    ExpiryFlags(expiresAt.GetOr(now), now);
    if IsExpired(expiresAt, now) then ExpiredColor
    else if IsExpiringSoon(expiresAt, now) then SoonColor
    else NormalColor
  }

  const Dash := "—"

  /** The years-of-experience text: `N years`, or a dash for null and 0. */
  function YearsDisplay(years: Option<int>): (shown: string)
    ensures years.None? || years.value == 0 ==> shown == Dash
    ensures years.Some? && years.value != 0 ==>
      Text.EndsWith(shown, " years") && Text.ParseInt(shown) == Text.Int(years.value)
  {
    if years.Some? && years.value != 0 then
      var digits := Text.IntToDecimal(years.value);
      Text.ParseIntOfDecimal(years.value);
      ParseIntIgnoresSuffix(digits, " years");
      assert (digits + " years")[|digits + " years"| - 6..] == " years";
      digits + " years"
    else Dash
  }

  /** `parseInt` stops at the first character that is not a digit. */
  lemma ParseIntIgnoresSuffix(digits: string, suffix: string)
    requires |digits| > 0 && (Text.AllDigits(digits) || (digits[0] == '-' && Text.AllDigits(digits[1..])))
    requires |suffix| > 0 && !Text.IsDigit(suffix[0])
    ensures Text.ParseInt(digits + suffix) == Text.ParseInt(digits)
  {
    var s := digits + suffix;
    assert !Text.IsSpace(s[0]) && Text.TrimStart(s) == s && Text.TrimStart(digits) == digits;
    if digits[0] == '-' || digits[0] == '+' {
      assert s[1..] == digits[1..] + suffix;
      LeadingDigitsBeforeSuffix(digits[1..], suffix);
    } else {
      LeadingDigitsBeforeSuffix(digits, suffix);
    }
  }

  lemma {:induction false} LeadingDigitsBeforeSuffix(digits: string, suffix: string)
    requires Text.AllDigits(digits)
    requires |suffix| > 0 && !Text.IsDigit(suffix[0])
    ensures Text.LeadingDigits(digits + suffix) == Text.LeadingDigits(digits) == digits
  {
    Text.LeadingDigitsOfDigits(digits);
    if digits != [] {
      assert (digits + suffix)[1..] == digits[1..] + suffix;
      LeadingDigitsBeforeSuffix(digits[1..], suffix);
    }
  }

  /** The license fields of an agent profile. */
  datatype LicenseInfo = LicenseInfo(
    licenseNumber: Option<string>, licenseState: Option<string>,
    licenseExpiryDate: Option<string>, yearsExperience: Option<int>)

  /** The edit form's text fields. */
  datatype LicenseForm = LicenseForm(
    licenseNumber: string, licenseState: string, licenseExpiryDate: string, yearsExperience: string)

  /** The form's initial values: null becomes the empty text and the years
      are written in decimal. */
  function InitialForm(info: LicenseInfo): (form: LicenseForm)
    ensures form.licenseNumber == info.licenseNumber.GetOr("")
    ensures form.licenseState == info.licenseState.GetOr("")
    ensures form.licenseExpiryDate == info.licenseExpiryDate.GetOr("")
    ensures info.yearsExperience.None? <==> form.yearsExperience == ""
  {
    LicenseForm(
      info.licenseNumber.GetOr(""), info.licenseState.GetOr(""), info.licenseExpiryDate.GetOr(""),
      if info.yearsExperience.Some? then Text.IntToDecimal(info.yearsExperience.value) else "")
  }

  /** What `handleSave` writes: an empty date becomes null and the years are
      parsed with `parseInt`, or null when the field is empty. */
  datatype LicensePayload = LicensePayload(
    licenseNumber: string, licenseState: string, licenseExpiryDate: Option<string>, yearsExperience: Option<Text.Number>)

  function SavePayload(form: LicenseForm): (p: LicensePayload)
    ensures p.licenseNumber == form.licenseNumber && p.licenseState == form.licenseState
    ensures p.licenseExpiryDate.None? <==> form.licenseExpiryDate == ""
    ensures p.licenseExpiryDate.Some? ==> p.licenseExpiryDate.value == form.licenseExpiryDate
    ensures p.yearsExperience.None? <==> form.yearsExperience == ""
    ensures p.yearsExperience.Some? ==> p.yearsExperience.value == Text.ParseInt(form.yearsExperience)
  {
    LicensePayload(
      form.licenseNumber, form.licenseState,
      if form.licenseExpiryDate != "" then Some(form.licenseExpiryDate) else None,
      if form.yearsExperience != "" then Some(Text.ParseInt(form.yearsExperience)) else None)
  }

  /** Opening the form and saving it unchanged writes back what was stored,
      except that a null number or state is written as the empty text. */
  lemma SaveUnchanged(info: LicenseInfo)
    requires info.licenseExpiryDate != Some("")
    ensures var p := SavePayload(InitialForm(info));
      p.licenseExpiryDate == info.licenseExpiryDate
      && p.licenseNumber == info.licenseNumber.GetOr("")
      && p.licenseState == info.licenseState.GetOr("")
      && (info.yearsExperience.None? ==> p.yearsExperience.None?)
      && (info.yearsExperience.Some? ==> p.yearsExperience == Some(Text.Int(info.yearsExperience.value)))
  {
    if info.yearsExperience.Some? {
      Text.ParseIntOfDecimal(info.yearsExperience.value);
      assert |Text.IntToDecimal(info.yearsExperience.value)| > 0;
    }
  }
}
