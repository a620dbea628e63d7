/**
 * The number clean-up of the WhatsApp validator: keep the digits of the
 * phone number, assume Brazil (country code 55) when the number does not
 * start with it, and build the public send URL. The browser visit that
 * follows is not part of this model.
 */
module Validator {
  import opened Text
  import opened Numbers

  const COUNTRY_CODE := "55"
  const SEND_URL := "https://api.whatsapp.com/send?phone="

  /** `"".join(filter(str.isdigit, phone))`, then "55" in front unless it is already there. */
  function CleanNumber(phone: string): (r: string)
  {
    var digits := Keep(phone, IsPyDigit);
    if StartsWith(digits, COUNTRY_CODE) then digits else COUNTRY_CODE + digits
  }

  /** The number is the input's digits, in order, behind the country code when they lacked it. */
  lemma CleanNumberDigits(phone: string)
    ensures var digits := Keep(phone, IsPyDigit);
      && StartsWith(CleanNumber(phone), COUNTRY_CODE)
      && (StartsWith(digits, COUNTRY_CODE) ==> CleanNumber(phone) == digits)
      && (!StartsWith(digits, COUNTRY_CODE) ==> CleanNumber(phone) == COUNTRY_CODE + digits)
      && forall i :: 0 <= i < |CleanNumber(phone)| ==> IsPyDigit(CleanNumber(phone)[i])
  {
    var digits := Keep(phone, IsPyDigit);
    var r := CleanNumber(phone);
    if !StartsWith(digits, COUNTRY_CODE) {
      assert forall i :: 2 <= i < |r| ==> r[i] == digits[i - 2];
    }
  }

  /** Cleaning a cleaned number changes nothing. */
  lemma CleanNumberIdempotent(phone: string)
    ensures CleanNumber(CleanNumber(phone)) == CleanNumber(phone)
  {
    CleanNumberDigits(phone);
    KeepAll(CleanNumber(phone), IsPyDigit);
  }

  /** A number without any digit becomes the bare country code. */
  lemma CleanNumberNoDigits(phone: string)
    requires forall i :: 0 <= i < |phone| ==> !IsPyDigit(phone[i])
    ensures CleanNumber(phone) == COUNTRY_CODE
  {
    KeepNone(phone, IsPyDigit);
  }

  /** The URL the validator opens. */
  function SendUrl(phone: string): (r: string)
    ensures StartsWith(r, SEND_URL) && r[|SEND_URL|..] == CleanNumber(phone)
  {
    SEND_URL + CleanNumber(phone)
  }
}
