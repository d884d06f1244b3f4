/** applications/serializers.py: the three field validators of an anonymous
    submission, the fields a submission may fill and those the supervisors'
    serializer only reports. */
module ApplicationSerializers {
  import opened Common
  import opened Text
  import opened Patterns
  import opened Store
  import opened PickupSerializers

  // ---------------------------------------------------------------------------
  // Field sets
  // ---------------------------------------------------------------------------

  /** `ApplicationSubmissionSerializer.Meta.fields`. */
  const SubmissionFields: seq<string> := [
    "first_name", "last_name", "phone", "email", "address",
    "family_size", "children_count", "elderly_count", "employment_status",
    "special_needs", "tec_member", "selected_package", "package_flexibility",
    "preferred_date", "preferred_time", "alternative_date", "alternative_time",
    "transportation_help", "delivery_request", "terms_agreement"]

  /** `ApplicationSerializer.Meta.fields`. */
  const ReportedFields: seq<string> := [
    "id", "reference_number"] + SubmissionFields + ["status", "created_at"]

  /** `ApplicationSerializer.Meta.read_only_fields`. */
  const ReadOnlyFields: set<string> := {"id", "reference_number", "status", "created_at"}

  /** A submitter cannot set the status, the reference number, the key or the
      creation time: none of them is a submission field, and the reporting
      serializer lists each of them as read-only. The reporting serializer
      shows every submission field, and those alone are writable through it. */
  lemma SubmitterCannotSetReviewState()
    ensures forall f :: f in ReadOnlyFields ==> f !in SubmissionFields && f in ReportedFields
    ensures forall f :: f in SubmissionFields ==> f in ReportedFields && f !in ReadOnlyFields
    ensures forall f :: f in ReportedFields && f !in ReadOnlyFields ==> f in SubmissionFields
    ensures |SubmissionFields| == 20 && |ReportedFields| == 24
  {
  }

  // ---------------------------------------------------------------------------
  // Validators
  // ---------------------------------------------------------------------------

  /** `validate_terms_agreement(value)`: a false value is refused. */
  function ValidateTermsAgreement(value: bool): (r: Validation<bool>)
    ensures r.Passed? <==> value
    ensures r.Passed? ==> r.value == value
    ensures r.Refused? ==> r.message == "You must accept the terms and conditions."
  {
    if !value then Refused("You must accept the terms and conditions.") else Passed(value)
  }

  /** `validate_phone(value)`: `re.match` with `^(\+?234|0)[789][01]\d{8}$`,
      whose `$` also matches before a final newline. */
  function ValidatePhone(value: string): (r: Validation<string>)
    ensures r.Passed? <==> PyMatchesOptionalPlusPhone(value)
    ensures r.Passed? ==> r.value == value
    ensures r.Refused? ==> r.message == "Enter a valid Nigerian phone number."
  {
    if !PyMatchesOptionalPlusPhone(value) then Refused("Enter a valid Nigerian phone number.") else Passed(value)
  }

  /** `validate_tec_member(value)`: only `yes` and `no` pass. */
  function ValidateTecMember(value: string): (r: Validation<string>)
    ensures r.Passed? <==> value == "yes" || value == "no"
    ensures r.Passed? ==> r.value == value
    ensures r.Refused? ==> r.message == "Please select your TEC membership status."
  {
    if value !in ["yes", "no"] then Refused("Please select your TEC membership status.") else Passed(value)
  }

  /** The phone validator accepts exactly the Nigerian numbers: a trunk `0`
      and 10 more characters, `234` and 10 more, or `+234` and 10 more (and,
      through `$`, each of these followed by one newline). */
  lemma {:induction false} PhoneValidatorLanguage(value: string)
    requires value == [] || value[|value| - 1] != '\n'
    ensures ValidatePhone(value).Passed? <==> IsNigerianPhone(value)
    ensures ValidatePhone(value).Passed? ==> |value| in {11, 13, 14}
  {
    OptionalPlusPhoneIsNigerianPhone(value);
  }

  /** A number with a space inside is refused. */
  lemma {:induction false} SpacedPhoneRefused(value: string, k: nat)
    requires k < |value| - 1 && value[k] == ' '
    ensures ValidatePhone(value).Refused?
  {
    if MatchesOptionalPlusPhone(value) {
      PhoneHasNoSpace(value, k);
    }
    if value != [] && value[|value| - 1] == '\n' && MatchesOptionalPlusPhone(value[..|value| - 1]) {
      PhoneHasNoSpace(value[..|value| - 1], k);
    }
  }

  // ---------------------------------------------------------------------------
  // The submission
  // ---------------------------------------------------------------------------

  /** A submission body once each field has been converted by its field
      type. `terms` is `None` when the body omits `terms_agreement`: the
      field is optional (the model gives it a default), so its validator is
      then skipped and the default `False` is stored. */
  datatype Submission = Submission(details: ApplicantDetails, terms: Option<bool>)

  /** The messages `serializer.errors` holds for the three validated fields. */
  datatype FieldErrors = FieldErrors(phone: Option<string>, tecMember: Option<string>, termsAgreement: Option<string>) {
    predicate Clean() {
      phone.None? && tecMember.None? && termsAgreement.None?
    }
  }

  function ErrorOf<T>(v: Validation<T>): (r: Option<string>)
    ensures r.None? <==> v.Passed?
  {
    if v.Refused? then Some(v.message) else None
  }

  /** The field errors of the three validators. The phone reaches its
      validator with surrounding white space trimmed, as the `CharField`
      does before calling it. */
  function SubmissionErrors(s: Submission): (errors: FieldErrors)
    ensures errors.phone.Some? <==> ValidatePhone(Strip(s.details.phone, PySpace)).Refused?
    ensures errors.tecMember.Some? <==> ValidateTecMember(s.details.tecMember).Refused?
    ensures errors.termsAgreement.Some? <==> s.terms == Some(false)
  {
    FieldErrors(
      ErrorOf(ValidatePhone(Strip(s.details.phone, PySpace))),
      ErrorOf(ValidateTecMember(s.details.tecMember)),
      if s.terms.Some? then ErrorOf(ValidateTermsAgreement(s.terms.value)) else None)
  }

  /** The columns `serializer.save()` stores: the trimmed phone, and the
      agreement given or its default. */
  function CleanedDetails(s: Submission): (d: ApplicantDetails)
    ensures d.phone == Strip(s.details.phone, PySpace)
    ensures d.termsAgreement == s.terms.GetOr(false)
    ensures d == s.details.(phone := d.phone, termsAgreement := d.termsAgreement)
  {
    s.details.(phone := Strip(s.details.phone, PySpace), termsAgreement := s.terms.GetOr(false))
  }

  /** A body that omits `terms_agreement` passes with the agreement unset:
      the validator only sees values that are present. */
  lemma OmittedTermsPass(s: Submission)
    requires s.terms.None?
    requires IsNigerianPhone(s.details.phone) && s.details.tecMember == "yes"
    ensures SubmissionErrors(s).Clean()
    ensures !CleanedDetails(s).termsAgreement
  {
    StripNoSpaceInNumber(s.details.phone);
    PhoneValidatorLanguage(s.details.phone);
  }

  /** A Nigerian number has no white space at either end, so trimming leaves
      it as it is. */
  lemma StripNoSpaceInNumber(phone: string)
    requires IsNigerianPhone(phone)
    ensures Strip(phone, PySpace) == phone
  {
    forall k | 0 <= k < |phone| ensures !IsSpace(PySpace, phone[k]) {
      OptionalPlusPhoneIsNigerianPhone(phone);
      NigerianPhoneCharacter(phone, k);
    }
    StripNoWhitespace(phone, PySpace);
  }

  lemma NigerianPhoneCharacter(phone: string, k: nat)
    requires IsNigerianPhone(phone) && k < |phone|
    ensures IsAsciiDigit(phone[k]) || phone[k] == '+'
  {
    var i := if phone[0] == '0' then 1 else if phone[0] == '2' then 3 else 4;
    if k >= i {
      var body := phone[i..];
      assert phone[k] == body[k - i];
      if k - i >= 2 {
        assert body[k - i] == body[2..][k - i - 2];
      }
    } else if phone[0] == '2' {
      assert phone[k] == "234"[k];
    } else if phone[0] == '+' {
      assert phone[k] == "+234"[k];
    }
  }

  /** After the trim no newline ends the phone, so the newline that `$`
      tolerates never reaches the validator from a submission. */
  lemma TrimmedPhoneValidatorLanguage(s: Submission)
    ensures SubmissionErrors(s).phone.None? <==> IsNigerianPhone(Strip(s.details.phone, PySpace))
  {
    var t := Strip(s.details.phone, PySpace);
    assert t == [] || !IsSpace(PySpace, t[|t| - 1]);
    PhoneValidatorLanguage(t);
  }
}
