/**
 * process_payment_details of cinebook1 and smartshow enhanced: dispatch on the
 * payment method, run that method's validators in order, and answer
 * (accepted, message). The payment form's dictionary is a map from field
 * name to text; a missing field reads as "" (None and "" are both falsy).
 */
module PaymentDetails {
  import opened Text
  import opened Validators

  /** The (bool, str) pair the function returns. */
  datatype Outcome = Outcome(ok: bool, message: string)

  const Upi := "UPI"
  const Card := "Credit/Debit Card"
  const NetBanking := "Net Banking"

  /** payment_data.get(key), with a missing key as "". */
  function Field(data: map<string, string>, key: string): string {
    if key in data then data[key] else ""
  }

  /** Python's s[-4:]: the last four characters, or all of a shorter string. */
  function Last4(s: string): (r: string)
    ensures |r| == if |s| < 4 then |s| else 4
    ensures s == s[..|s| - |r|] + r
  {
    if |s| <= 4 then s else s[|s| - 4..]
  }

  predicate CardFieldsValid(data: map<string, string>, curYear: int, curMonth: int) {
    ValidateCardNumber(Field(data, "card_number")) && ValidateCvv(Field(data, "cvv")) &&
    ValidateExpiry(Field(data, "exp_month"), Field(data, "exp_year"), curYear, curMonth)
  }

  function ProcessPaymentDetails(paymentMethod: string, data: map<string, string>, curYear: int, curMonth: int): (r: Outcome)
    ensures paymentMethod !in {Upi, Card, NetBanking} ==> r == Outcome(false, "Invalid payment method")
    ensures paymentMethod == Upi ==> (r.ok <==> ValidateUpiId(Field(data, "upi_id")))
    ensures paymentMethod == Card ==> (r.ok <==> CardFieldsValid(data, curYear, curMonth))
    ensures paymentMethod == NetBanking ==>
      (r.ok <==> Field(data, "bank_name") != "" && Field(data, "account_number") != "")
  {
    if paymentMethod == Upi then
      if !ValidateUpiId(Field(data, "upi_id")) then Outcome(false, "Invalid UPI ID format")
      else Outcome(true, "UPI: " + data["upi_id"])
    else if paymentMethod == Card then
      if !ValidateCardNumber(Field(data, "card_number")) then Outcome(false, "Invalid card number")
      else if !ValidateCvv(Field(data, "cvv")) then Outcome(false, "Invalid CVV")
      else if !ValidateExpiry(Field(data, "exp_month"), Field(data, "exp_year"), curYear, curMonth) then
        Outcome(false, "Invalid or expired card")
      else
        Outcome(true, "Card ending in " + Last4(CleanCard(data["card_number"])))
    else if paymentMethod == NetBanking then
      if Field(data, "bank_name") == "" then Outcome(false, "Please select a bank")
      else if Field(data, "account_number") == "" then Outcome(false, "Account number is required")
      else Outcome(true, "Net Banking: " + data["bank_name"])
    else Outcome(false, "Invalid payment method")
  }

  /** Card checks run in the order number, CVV, expiry; the first one to fail names the rejection. */
  lemma CardCheckOrder(data: map<string, string>, curYear: int, curMonth: int)
    ensures var r := ProcessPaymentDetails(Card, data, curYear, curMonth);
      && (!ValidateCardNumber(Field(data, "card_number")) ==> r == Outcome(false, "Invalid card number"))
      && (ValidateCardNumber(Field(data, "card_number")) && !ValidateCvv(Field(data, "cvv")) ==>
            r == Outcome(false, "Invalid CVV"))
      && (ValidateCardNumber(Field(data, "card_number")) && ValidateCvv(Field(data, "cvv")) &&
          !ValidateExpiry(Field(data, "exp_month"), Field(data, "exp_year"), curYear, curMonth) ==>
            r == Outcome(false, "Invalid or expired card"))
  {
  }

  /** An accepted card is reported by exactly the last four of its sixteen digits. */
  lemma {:induction false} CardAcceptedMessage(data: map<string, string>, curYear: int, curMonth: int)
    requires CardFieldsValid(data, curYear, curMonth)
    ensures var r := ProcessPaymentDetails(Card, data, curYear, curMonth);
      var clean := CleanCard(data["card_number"]);
      r.ok && r.message == "Card ending in " + clean[12..] && IsDigits(clean[12..])
  {
    var clean := CleanCard(data["card_number"]);
    assert |clean| == 16;
    assert Last4(clean) == clean[12..];
  }

  /** A rejection always carries one of the seven fixed reasons. */
  lemma RejectionReasons(paymentMethod: string, data: map<string, string>, curYear: int, curMonth: int)
    ensures var r := ProcessPaymentDetails(paymentMethod, data, curYear, curMonth);
      !r.ok ==> r.message in {"Invalid UPI ID format", "Invalid card number", "Invalid CVV",
                              "Invalid or expired card", "Please select a bank",
                              "Account number is required", "Invalid payment method"}
  {
  }
}
