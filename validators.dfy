/**
 * The input validators of the booking app: e-mail, password, UPI id, card
 * number, CVV and card expiry. The versions differ in the e-mail length rule
 * and in the password minimum, so each variant is its own predicate and the
 * lemmas below say exactly where they part.
 *
 * A missing dictionary entry (Python None) and the empty string are both
 * falsy and every validator treats them alike, so both are "" here. The
 * clock is a parameter: `curYear`, `curMonth` stand for datetime.now().
 */
module Validators {
  import opened Wrappers
  import opened Text
  import opened Collections

  const GmailSuffix := "@gmail.com"

  /** create_validator(min, max): a closure accepting strings whose length lies in [min, max]. */
  function CreateValidator(minLength: int, maxLength: int): (v: string -> bool)
    ensures forall s :: v(s) <==> minLength <= |s| <= maxLength
  {
    s => minLength <= |s| <= maxLength
  }

  /** Both bounds of create_validator are inclusive. */
  lemma CreateValidatorInclusive(minLength: nat, maxLength: nat, s: string)
    requires minLength <= maxLength
    requires |s| == minLength || |s| == maxLength
    ensures CreateValidator(minLength, maxLength)(s)
    ensures forall t: string :: |t| == maxLength + 1 ==> !CreateValidator(minLength, maxLength)(t)
  {
  }

  /** email_validator = create_validator(10, 100) of the advanced versions. */
  function EmailLength(): string -> bool { CreateValidator(10, 100) }

  /** password_validator = create_validator(5, 10) of the advanced versions. */
  function PasswordLength(): string -> bool { CreateValidator(5, 10) }

  // ---------------------------------------------------------------- e-mail

  /** valid_email rejecting a space or fewer than 10 characters (cinebook3 and most smartshow versions). */
  predicate EmailMin10(email: string) {
    if ' ' in email || |email| < 10 then false else EndsWith(email, GmailSuffix)
  }

  /** valid_email requiring strictly more than 10 characters (cinebook1, smartshow enhanced). */
  predicate EmailOver10(email: string) {
    if ' ' in email then false else EndsWith(email, GmailSuffix) && |email| > 10
  }

  /** validate_email of the advanced versions: no space and email_validator's 10..100. */
  predicate EmailAdvanced(email: string) {
    if ' ' in email || !EmailLength()(email) then false else EndsWith(email, GmailSuffix)
  }

  /** User.validate_email of smartshow complete_fixed: email_validator and the suffix, no space check. */
  predicate UserEmailCompleteFixed(email: string) {
    EmailLength()(email) && EndsWith(email, GmailSuffix)
  }

  /** The suffix is itself 10 long, so the `len < 10` test never decides anything. */
  lemma EmailMin10Characterized(email: string)
    ensures EmailMin10(email) <==> ' ' !in email && EndsWith(email, GmailSuffix)
  {
  }

  /** The two e-mail rules differ on exactly one input: the bare suffix. */
  lemma EmailRulesDiffer(email: string)
    ensures EmailOver10(email) ==> EmailMin10(email)
    ensures EmailMin10(email) && !EmailOver10(email) <==> email == GmailSuffix
  {
    if email == GmailSuffix {
      assert EndsWith(email, GmailSuffix);
    }
  }

  /** The advanced rule is the 10-character rule capped at 100 characters. */
  lemma EmailAdvancedCapped(email: string)
    ensures EmailAdvanced(email) <==> EmailMin10(email) && |email| <= 100
  {
  }

  /** complete_fixed accepts an address with a space that every other version rejects. */
  lemma UserEmailCompleteFixedAcceptsSpace()
    ensures UserEmailCompleteFixed("a b@gmail.com")
    ensures !EmailAdvanced("a b@gmail.com") && !EmailMin10("a b@gmail.com") && !EmailOver10("a b@gmail.com")
  {
    var e := "a b@gmail.com";
    assert e[|e| - 10..] == GmailSuffix;
    assert e[1] == ' ';
  }

  // ---------------------------------------------------------------- password

  /** At least one upper-case letter, one lower-case letter, one digit and an '@'. */
  predicate HasCharClasses(pw: string) {
    (exists i :: 0 <= i < |pw| && IsUpper(pw[i])) &&
    (exists i :: 0 <= i < |pw| && IsLower(pw[i])) &&
    (exists i :: 0 <= i < |pw| && IsDigit(pw[i])) &&
    '@' in pw
  }

  /** valid_password / validate_password with 5 <= len <= 10 (cinebook3, smartshow versions, advanced). */
  predicate PasswordStrict(pw: string) {
    if |pw| > 10 || |pw| < 5 then false else HasCharClasses(pw)
  }

  /** valid_password with only the 10-character maximum (cinebook1, smartshow enhanced). */
  predicate PasswordMax10(pw: string) {
    if |pw| > 10 then false else HasCharClasses(pw)
  }

  /** validate_password of the advanced versions, through password_validator. */
  predicate PasswordAdvanced(pw: string) {
    if !PasswordLength()(pw) then false else HasCharClasses(pw)
  }

  lemma PasswordAdvancedIsStrict(pw: string)
    ensures PasswordAdvanced(pw) <==> PasswordStrict(pw)
  {
  }

  /** The four character classes are disjoint, so any password passing them has at least 4 characters. */
  lemma PasswordClassesNeedFour(pw: string)
    requires HasCharClasses(pw)
    ensures |pw| >= 4
  {
    var u :| 0 <= u < |pw| && IsUpper(pw[u]);
    var l :| 0 <= l < |pw| && IsLower(pw[l]);
    var d :| 0 <= d < |pw| && IsDigit(pw[d]);
    var k :| 0 <= k < |pw| && pw[k] == '@';
    var four := {pw[u], pw[l], pw[d], pw[k]};
    assert |four| == 4;
    SubsetCard(four, Elements(pw));
    ElementsBound(pw);
  }

  /** The two password rules differ exactly on 4-character passwords, which only cinebook1 accepts. */
  lemma PasswordRulesDiffer(pw: string)
    ensures PasswordStrict(pw) ==> PasswordMax10(pw)
    ensures PasswordMax10(pw) && !PasswordStrict(pw) <==> PasswordMax10(pw) && |pw| == 4
  {
    if PasswordMax10(pw) {
      PasswordClassesNeedFour(pw);
    }
  }

  lemma FourCharPasswordSplitsRules()
    ensures PasswordMax10("Aa1@") && !PasswordStrict("Aa1@")
  {
    var p := "Aa1@";
    assert IsUpper(p[0]) && IsLower(p[1]) && IsDigit(p[2]) && p[3] == '@';
  }

  // ---------------------------------------------------------------- UPI

  const UpiHandles: seq<string> :=
    ["@paytm", "@phonepe", "@gpay", "@amazonpay", "@ybl", "@okaxis", "@okicici", "@okhdfcbank", "@oksbi", "@okbizaxis"]

  /** validate_upi_id: non-empty, holds an '@' and ends with one of the listed handles. */
  predicate ValidateUpiId(upiId: string) {
    if upiId == "" then false
    else '@' in upiId && exists h :: h in UpiHandles && EndsWith(upiId, h)
  }

  /** Every handle begins with '@', so the separate '@' test never decides, and a bare handle passes. */
  lemma UpiCharacterized(upiId: string)
    ensures ValidateUpiId(upiId) <==> exists h :: h in UpiHandles && EndsWith(upiId, h)
    ensures ValidateUpiId("@paytm")
  {
    if h :| h in UpiHandles && EndsWith(upiId, h) {
      assert h[0] == '@';
      assert upiId[|upiId| - |h|] == '@';
    }
    assert EndsWith("@paytm", UpiHandles[0]);
  }

  // ---------------------------------------------------------------- card

  /** card_number.replace(' ', '').replace('-', ''). */
  function CleanCard(card: string): (r: string)
    ensures forall x :: x in r <==> x in card && x != ' ' && x != '-'
  {
    RemoveAll(RemoveAll(card, ' '), '-')
  }

  /** validate_card_number: non-empty and 16 digits once spaces and dashes are removed. */
  predicate ValidateCardNumber(card: string) {
    if card == "" then false
    else var clean := CleanCard(card); IsDigits(clean) && |clean| == 16
  }

  /** A card number passes iff only digits, spaces and dashes occur in it and exactly 16 remain after cleaning. */
  lemma CardCharacterized(card: string)
    ensures ValidateCardNumber(card) <==>
      |CleanCard(card)| == 16 && forall i :: 0 <= i < |card| ==> IsDigit(card[i]) || card[i] == ' ' || card[i] == '-'
  {
    var clean := CleanCard(card);
    if ValidateCardNumber(card) {
      forall i | 0 <= i < |card| ensures IsDigit(card[i]) || card[i] == ' ' || card[i] == '-' {
        if card[i] != ' ' && card[i] != '-' {
          assert card[i] in clean;
          var j :| 0 <= j < |clean| && clean[j] == card[i];
        }
      }
    }
    if |clean| == 16 && forall i :: 0 <= i < |card| ==> IsDigit(card[i]) || card[i] == ' ' || card[i] == '-' {
      forall j | 0 <= j < |clean| ensures IsDigit(clean[j]) {
        assert clean[j] in card;
      }
      assert card != "";
    }
  }

  // ---------------------------------------------------------------- CVV

  /** validate_cvv: truthy iff non-empty, all digits and 3 or 4 long. */
  predicate ValidateCvv(cvv: string) {
    cvv != "" && IsDigits(cvv) && |cvv| in [3, 4]
  }

  // ---------------------------------------------------------------- expiry

  /**
   * validate_expiry(month, year) with datetime.now() as (curYear, curMonth):
   * empty or non-numeric fields fail, an expiry before the current month
   * fails, otherwise the month must be 1..12 and the year at most ten ahead.
   */
  predicate ValidateExpiry(month: string, year: string, curYear: int, curMonth: int) {
    if month == "" || year == "" then false
    else match (ParseInt(month), ParseInt(year))
      case (Some(expMonth), Some(expYear)) =>
        if expYear < curYear || (expYear == curYear && expMonth < curMonth) then false
        else 1 <= expMonth <= 12 && curYear <= expYear <= curYear + 10
      case _ => false
  }

  /** The emptiness test is subsumed by int(); an expiry passes iff it parses, is a calendar month, not past, and within ten years. */
  lemma ExpiryCharacterized(month: string, year: string, curYear: int, curMonth: int)
    ensures ValidateExpiry(month, year, curYear, curMonth) <==>
      ParseInt(month).Some? && ParseInt(year).Some? &&
      var m, y := ParseInt(month).value, ParseInt(year).value;
      1 <= m <= 12 && curYear <= y <= curYear + 10 && (y > curYear || m >= curMonth)
  {
  }

  /**
   * With the values the payment form offers ("01".."12" and the next eleven
   * years), a card is accepted iff it does not expire before the current month.
   */
  lemma ExpiryOfFormChoices(m: nat, y: nat, curYear: nat, curMonth: int)
    requires 1 <= m <= 12 && curYear <= y <= curYear + 10
    ensures ValidateExpiry(Pad2(m), NatToString(y), curYear, curMonth) <==> (y > curYear || m >= curMonth)
  {
    ParseIntOfNat(y);
    var p := Pad2(m);
    assert IsDigits(p);
  }
}
