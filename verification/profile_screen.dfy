/** The business-profile screen: an ordered list of validation rules over the
    form, the payload built from an accepted form, and the submit step that
    sends it and clears the `isSubmitting` flag again. */
module ProfileScreen {
  import opened Common
  import opened Records
  import opened Session

  const MissingFields: string := "Please fill in all required fields"
  const InvalidPhone: string := "Please enter a valid phone number"
  const InvalidUpiId: string := "Please enter a valid UPI ID"
  const MissingBankDetails: string := "Please fill in all bank account details"
  const InvalidAccountNumber: string := "Please enter a valid account number"

  const MinPhoneLength: nat := 10
  const MinAccountNumberLength: nat := 10

  datatype Verdict = Accepted | Rejected(message: string)

  /** `validateForm`: the first rule that fires decides the message. */
  function ValidateForm(f: ProfileForm): (v: Verdict)
    ensures (f.companyName == "" || f.phone == "" || f.address == "" || f.location == "") ==>
              v == Rejected(MissingFields)
    ensures |f.phone| < MinPhoneLength ==> v.Rejected?
    ensures f.paymentMode == Upi && '@' !in f.paymentDetails ==> v.Rejected?
    ensures f.paymentMode == Bank && (f.accountNumber == "" || f.ifscCode == "" || f.accountHolderName == "") ==>
              v.Rejected?
    ensures f.paymentMode == Bank && |f.accountNumber| < MinAccountNumberLength ==> v.Rejected?
    ensures f.paymentMode == Upi ==> (v.Rejected? ==> v.message != MissingBankDetails && v.message != InvalidAccountNumber)
  {
    if f.companyName == "" || f.phone == "" || f.address == "" || f.location == "" then Rejected(MissingFields)
    else if |f.phone| < MinPhoneLength then Rejected(InvalidPhone)
    else if f.paymentMode == Upi && '@' !in f.paymentDetails then Rejected(InvalidUpiId)
    else if f.paymentMode == Bank && (f.accountNumber == "" || f.ifscCode == "" || f.accountHolderName == "") then
      Rejected(MissingBankDetails)
    else if f.paymentMode == Bank && |f.accountNumber| < MinAccountNumberLength then Rejected(InvalidAccountNumber)
    else Accepted
  }

  /** A validation rule: whether it fires on the form, and its message. */
  datatype Rule = Rule(fires: bool, message: string)

  /** The validation rules, in the order the screen checks them. */
  function Rules(f: ProfileForm): seq<Rule> {
    [ Rule(f.companyName == "" || f.phone == "" || f.address == "" || f.location == "", MissingFields),
      Rule(|f.phone| < MinPhoneLength, InvalidPhone),
      Rule(f.paymentMode == Upi && '@' !in f.paymentDetails, InvalidUpiId),
      Rule(f.paymentMode == Bank && (f.accountNumber == "" || f.ifscCode == "" || f.accountHolderName == ""),
           MissingBankDetails),
      Rule(f.paymentMode == Bank && |f.accountNumber| < MinAccountNumberLength, InvalidAccountNumber) ]
  }

  /** The verdict of an ordered rule list: rejected with the message of the
      first rule that fires, accepted when none does. */
  function FirstFired(rules: seq<Rule>): (v: Verdict)
    ensures v == Accepted <==> forall i :: 0 <= i < |rules| ==> !rules[i].fires
    ensures v.Rejected? ==>
              exists i :: 0 <= i < |rules| && rules[i].fires && rules[i].message == v.message
                          && forall j :: 0 <= j < i ==> !rules[j].fires
  {
    if rules == [] then Accepted
    else if rules[0].fires then Rejected(rules[0].message)
    else
      var v := FirstFired(rules[1..]);
      assert forall i :: 1 <= i < |rules| ==> rules[i] == rules[1..][i - 1];
      v
  }

  /** The screen's if-chain is the ordered rule list: the form is accepted iff
      no rule fires, and otherwise the first firing rule gives the message. */
  lemma ValidateFormFollowsRules(f: ProfileForm)
    ensures ValidateForm(f) == FirstFired(Rules(f))
    ensures ValidateForm(f) == Accepted <==> forall i :: 0 <= i < |Rules(f)| ==> !Rules(f)[i].fires
  {
    var r := Rules(f);
    var r1, r2, r3, r4 := r[1..], r[2..], r[3..], r[4..];
    assert r1[1..] == r2 && r2[1..] == r3 && r3[1..] == r4 && r4[1..] == [];
    assert FirstFired(r4) == if r[4].fires then Rejected(r[4].message) else Accepted;
    assert FirstFired(r3) == if r[3].fires then Rejected(r[3].message) else FirstFired(r4);
    assert FirstFired(r2) == if r[2].fires then Rejected(r[2].message) else FirstFired(r3);
    assert FirstFired(r1) == if r[1].fires then Rejected(r[1].message) else FirstFired(r2);
  }

  /** The payload of an accepted form: every form field, with `upiId` set to the
      UPI id in UPI mode and `bankDetails` set to the three bank fields in bank
      mode, the other one `null`. */
  function BuildPayload(f: ProfileForm): (p: ProfilePayload)
    ensures p.form == f
    ensures p.upiId.Some? <==> f.paymentMode == Upi
    ensures p.bankDetails.Some? <==> f.paymentMode == Bank
    ensures p.upiId.Some? != p.bankDetails.Some?
    ensures Payment(p) == Some(PaymentOf(f))
  {
    ProfilePayload(
      f,
      if f.paymentMode == Upi then Some(f.paymentDetails) else None,
      if f.paymentMode == Bank then Some(BankDetails(f.accountNumber, f.ifscCode, f.accountHolderName)) else None)
  }

  /** The payment information a payload carries, read as a tagged union;
      `None` unless exactly one of its two members is set. */
  function Payment(p: ProfilePayload): Option<PaymentInfo> {
    match (p.upiId, p.bankDetails)
    case (Some(id), None) => Some(UpiId(id))
    case (None, Some(details)) => Some(BankAccount(details))
    case _ => None
  }

  /** The payment information the form's mode selects. */
  function PaymentOf(f: ProfileForm): PaymentInfo {
    match f.paymentMode
    case Upi => UpiId(f.paymentDetails)
    case Bank => BankAccount(BankDetails(f.accountNumber, f.ifscCode, f.accountHolderName))
  }

  const InitialForm: ProfileForm := ProfileForm("", "", "", "", Upi, "", "", "", "")

  /** The profile screen's state. */
  class Profile {
    var form: ProfileForm
    var isSubmitting: bool

    constructor ()
      ensures form == InitialForm && !isSubmitting
    {
      form := InitialForm;
      isSubmitting := false;
    }

    /** A radio button: sets `paymentMode` and nothing else. */
    method ChoosePaymentMode(mode: PaymentMode)
      modifies this
      ensures form == old(form).(paymentMode := mode) && isSubmitting == old(isSubmitting)
    {
      form := form.(paymentMode := mode);
    }

    /** `submit`: validate, raise `isSubmitting`, send the payload, lower it
        again on success and on failure alike. A rejected form sends nothing.
        `updated` tells whether the update call resolved. */
    method Submit(storage: Storage, reply: Reply<()>) returns (effects: seq<Effect>, updated: bool)
      modifies this
      ensures form == old(form)
      ensures ValidateForm(form).Rejected? ==> effects == [] && !updated && isSubmitting == old(isSubmitting)
      ensures ValidateForm(form) == Accepted ==>
                var c := UpdateProfile(storage.items, BuildPayload(form), reply);
                effects == c.effects && updated == c.result.Success? && !isSubmitting
    {
      if ValidateForm(form).Rejected? {
        return [], false;
      }
      isSubmitting := true;
      var payload := BuildPayload(form);
      var c := UpdateProfile(storage.items, payload, reply);
      effects := c.effects;
      updated := c.result.Success?;
      isSubmitting := false;
    }
  }
}
