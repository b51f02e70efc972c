/** saleor/graphql/shop/mutations/contact_form_submit.py: the `contactFormSubmit`
    mutation. A request is first checked against the contact-form rate limiter, then the
    input is validated, collecting every problem, and only a clean input notifies the
    staff. The input is the mutation's argument as the server receives it: a field that was
    not sent is absent, a field sent as null is `None`. */
module ContactForm {
  import opened Wrappers
  import opened Text
  import opened RateLimit

  type Input = map<string, Option<string>>

  datatype FormError = FormError(field: Option<string>, message: string)

  /** `len(None)`: an enquiry sent as null. */
  datatype Crash = TypeErrorOnNullEnquiry

  /** `input_data.get(field, default)`. */
  function GetOr(input: Input, field: string, default: string): Option<string> {
    if field in input then input[field] else Some(default)
  }

  /** `input_data.get(field)`. */
  function Get(input: Input, field: string): Option<string> {
    if field in input then input[field] else None
  }

  predicate Truthy(v: Option<string>) {
    v.Some? && v.value != ""
  }

  /** `field.replace('_', ' ').title()`. */
  function FieldLabel(field: string): string {
    Title(seq(|field|, i requires 0 <= i < |field| => if field[i] == '_' then ' ' else field[i]))
  }

  const RequiredFields: seq<string> := ["business_name", "contact_name", "email", "enquiry"]

  /** `MAX_LENGTHS`, in its order. */
  const MaxLengths: seq<(string, nat)> :=
    [("business_name", 200), ("contact_name", 200), ("email", 254), ("phone", 50), ("order_number", 100), ("enquiry", 5000)]

  const MinEnquiry: nat := 10

  /** Django's `validate_email` refuses an empty value or one without "@" before
      anything else; its remaining rules are the parameter `rules`. */
  predicate EmailAccepted(v: Option<string>, rules: string -> bool) {
    v.Some? && v.value != "" && '@' in v.value && rules(v.value)
  }

  const EmailError := FormError(Some("email"), "Invalid email address")
  const ShortEnquiry := FormError(Some("enquiry"), "Enquiry must be at least 10 characters")

  function RequiredError(f: string): FormError {
    FormError(Some(f), FieldLabel(f) + " is required")
  }

  function LengthError(l: (string, nat)): FormError {
    FormError(Some(l.0), FieldLabel(l.0) + " must not exceed " + NatToStr(l.1) + " characters")
  }

  /** The value a limit applies to is present, non-null, non-empty and too long. */
  predicate TooLong(input: Input, l: (string, nat)) {
    var v := GetOr(input, l.0, "");
    Truthy(v) && |v.value| > l.1
  }

  function EmailErrors(input: Input, rules: string -> bool): seq<FormError> {
    if EmailAccepted(GetOr(input, "email", ""), rules) then [] else [EmailError]
  }

  /** One error per missing, null or empty required field, in field order. */
  function RequiredErrors(input: Input, fields: seq<string>): (r: seq<FormError>)
    ensures forall e :: e in r ==> (exists f :: f in fields && !Truthy(Get(input, f)) && e == RequiredError(f))
    ensures forall f :: f in fields && !Truthy(Get(input, f)) ==> RequiredError(f) in r
  {
    if fields == [] then []
    else
      var front := fields[..|fields| - 1];
      var f := fields[|fields| - 1];
      assert forall g :: g in fields <==> g in front || g == f;
      RequiredErrors(input, front) + (if !Truthy(Get(input, f)) then [RequiredError(f)] else [])
  }

  /** One error per field longer than its limit, in limit order; a null or empty field is
      never too long. */
  function LengthErrors(input: Input, limits: seq<(string, nat)>): (r: seq<FormError>)
    ensures forall e :: e in r ==> (exists l :: l in limits && TooLong(input, l) && e == LengthError(l))
    ensures forall l :: l in limits && TooLong(input, l) ==> LengthError(l) in r
  {
    if limits == [] then []
    else
      var front := limits[..|limits| - 1];
      var l := limits[|limits| - 1];
      assert forall g :: g in limits <==> g in front || g == l;
      LengthErrors(input, front) + (if TooLong(input, l) then [LengthError(l)] else [])
  }

  function EnquiryLength(enquiry: Option<string>): nat {
    if enquiry.Some? then |enquiry.value| else 0
  }

  /** `validate_input`. With `nullEnquiryIsEmpty` false it is the code as written, where an
      enquiry sent as null reaches `len(None)`; with it true a null enquiry is measured as
      empty. */
  function ValidateWith(input: Input, rules: string -> bool, nullEnquiryIsEmpty: bool): Result<seq<FormError>, Crash> {
    var enquiry := GetOr(input, "enquiry", "");
    if enquiry.None? && !nullEnquiryIsEmpty then Err(TypeErrorOnNullEnquiry)
    else
      Ok(EmailErrors(input, rules) + RequiredErrors(input, RequiredFields)
         + (if EnquiryLength(enquiry) < MinEnquiry then [ShortEnquiry] else [])
         + LengthErrors(input, MaxLengths))
  }

  function ValidateAsWritten(input: Input, rules: string -> bool): Result<seq<FormError>, Crash> {
    ValidateWith(input, rules, false)
  }

  function Validate(input: Input, rules: string -> bool): seq<FormError> {
    ValidateWith(input, rules, true).value
  }

  /** The required-field loop of `validate_input`. */
  method CheckRequired(input: Input, fields: seq<string>) returns (errors: seq<FormError>)
    ensures errors == RequiredErrors(input, fields)
  {
    errors := [];
    for i := 0 to |fields|
      invariant errors == RequiredErrors(input, fields[..i])
    {
      assert fields[..i + 1][..i] == fields[..i];
      if !Truthy(Get(input, fields[i])) {
        errors := errors + [RequiredError(fields[i])];
      }
    }
    assert fields[..|fields|] == fields;
  }

  /** The maximum-length loop of `validate_input`. */
  method CheckLengths(input: Input, limits: seq<(string, nat)>) returns (errors: seq<FormError>)
    ensures errors == LengthErrors(input, limits)
  {
    errors := [];
    for i := 0 to |limits|
      invariant errors == LengthErrors(input, limits[..i])
    {
      assert limits[..i + 1][..i] == limits[..i];
      if TooLong(input, limits[i]) {
        errors := errors + [LengthError(limits[i])];
      }
    }
    assert limits[..|limits|] == limits;
  }

  /** `validate_input`, with the null enquiry measured as empty. */
  method ValidateInput(input: Input, rules: string -> bool) returns (errors: seq<FormError>)
    ensures errors == Validate(input, rules)
  {
    errors := [];
    if !EmailAccepted(GetOr(input, "email", ""), rules) {
      errors := errors + [EmailError];
    }
    assert errors == EmailErrors(input, rules);
    var required := CheckRequired(input, RequiredFields);
    errors := errors + required;
    var short: seq<FormError> := [];
    if EnquiryLength(GetOr(input, "enquiry", "")) < MinEnquiry {
      short := [ShortEnquiry];
    }
    errors := errors + short;
    var tooLong := CheckLengths(input, MaxLengths);
    errors := errors + tooLong;
    ValidateParts(input, rules);
  }

  /** The four parts of the validation, in order. */
  lemma ValidateParts(input: Input, rules: string -> bool)
    ensures Validate(input, rules) == EmailErrors(input, rules) + RequiredErrors(input, RequiredFields)
      + (if EnquiryLength(GetOr(input, "enquiry", "")) < MinEnquiry then [ShortEnquiry] else [])
      + LengthErrors(input, MaxLengths)
  {
  }

  /** The field labels read as the form shows them. */
  lemma BusinessNameLabel()
    ensures RequiredError("business_name").message == "Business Name is required"
  {
    var f := "business_name";
    var u := seq(|f|, i requires 0 <= i < |f| => if f[i] == '_' then ' ' else f[i]);
    assert u == "business name";
    TitleBusinessName();
  }

  lemma TitleBusinessName()
    ensures Title("business name") == "Business Name"
  {
    var t := Title("business name");
    assert |t| == 13;
    assert t[0] == 'B' && t[1] == 'u' && t[2] == 's' && t[3] == 'i' && t[4] == 'n' && t[5] == 'e' && t[6] == 's';
    assert t[7] == 's' && t[8] == ' ' && t[9] == 'N' && t[10] == 'a' && t[11] == 'm' && t[12] == 'e';
    assert t == "Business Name";
  }

  /** The four kinds of error never coincide. */
  lemma RequiredDistinct(f: string)
    ensures RequiredError(f) != EmailError && RequiredError(f) != ShortEnquiry
    ensures forall l :: RequiredError(f) != LengthError(l)
  {
    var m := RequiredError(f).message;
    assert m[|m| - 1] == 'd';
    forall l ensures RequiredError(f) != LengthError(l) {
      var n := LengthError(l).message;
      assert n[|n| - 1] == 's';
    }
  }

  lemma LengthDistinct(l: (string, nat))
    ensures LengthError(l) != EmailError && LengthError(l) != ShortEnquiry
  {
    var m := LengthError(l).message;
    assert |m| > |EmailError.message|;
    if l.0 == "enquiry" {
      assert |FieldLabel(l.0)| == 7;
      assert m[13] == 'n';
      assert ShortEnquiry.message[13] == 'b';
    }
  }

  /** Every error the validation reports is one of its four kinds, each for its reason. */
  lemma ValidateSound(input: Input, rules: string -> bool, e: FormError)
    requires e in Validate(input, rules)
    ensures e == EmailError ==> !EmailAccepted(GetOr(input, "email", ""), rules)
    ensures e == ShortEnquiry ==> EnquiryLength(GetOr(input, "enquiry", "")) < MinEnquiry
    ensures (exists f :: f in RequiredFields && !Truthy(Get(input, f)) && e == RequiredError(f))
      || (exists l :: l in MaxLengths && TooLong(input, l) && e == LengthError(l))
      || e == EmailError || e == ShortEnquiry
  {
    var req := RequiredErrors(input, RequiredFields);
    var len := LengthErrors(input, MaxLengths);
    if e in req {
      var f :| f in RequiredFields && !Truthy(Get(input, f)) && e == RequiredError(f);
      RequiredDistinct(f);
    } else if e in len {
      var l :| l in MaxLengths && TooLong(input, l) && e == LengthError(l);
      LengthDistinct(l);
    }
  }

  /** Every problem is reported. */
  lemma ValidateComplete(input: Input, rules: string -> bool)
    ensures !EmailAccepted(GetOr(input, "email", ""), rules) ==> EmailError in Validate(input, rules)
    ensures forall f :: f in RequiredFields && !Truthy(Get(input, f)) ==> RequiredError(f) in Validate(input, rules)
    ensures EnquiryLength(GetOr(input, "enquiry", "")) < MinEnquiry ==> ShortEnquiry in Validate(input, rules)
    ensures forall l :: l in MaxLengths && TooLong(input, l) ==> LengthError(l) in Validate(input, rules)
  {
  }

  /** An input is clean exactly when none of the four problems is present. */
  lemma ValidateClean(input: Input, rules: string -> bool)
    ensures Validate(input, rules) == [] <==>
      && EmailAccepted(GetOr(input, "email", ""), rules)
      && (forall f :: f in RequiredFields ==> Truthy(Get(input, f)))
      && EnquiryLength(GetOr(input, "enquiry", "")) >= MinEnquiry
      && (forall l :: l in MaxLengths ==> !TooLong(input, l))
  {
    ValidateComplete(input, rules);
    if Validate(input, rules) != [] {
      ValidateSound(input, rules, Validate(input, rules)[0]);
    }
  }

  /** A value exactly at its limit passes and one character more is refused. */
  lemma LengthLimitBoundary(input: Input, l: (string, nat), rules: string -> bool)
    requires l in MaxLengths
    ensures LengthError(l) in Validate(input, rules) <==> TooLong(input, l)
  {
    var req := RequiredErrors(input, RequiredFields);
    var len := LengthErrors(input, MaxLengths);
    ValidateParts(input, rules);
    if LengthError(l) in Validate(input, rules) {
      LengthDistinct(l);
      if LengthError(l) in req {
        var f :| f in RequiredFields && !Truthy(Get(input, f)) && LengthError(l) == RequiredError(f);
        RequiredDistinct(f);
      }
      MaxLengthsKeyed(l);
      LengthListedOnlyIfTooLong(input, MaxLengths, l);
    }
  }

  /** Limits that name distinct fields: a length error names its own limit. */
  lemma LengthListedOnlyIfTooLong(input: Input, limits: seq<(string, nat)>, l: (string, nat))
    requires l in limits && forall m :: m in limits && m.0 == l.0 ==> m == l
    ensures LengthError(l) in LengthErrors(input, limits) ==> TooLong(input, l)
  {
    if LengthError(l) in LengthErrors(input, limits) {
      var m :| m in limits && TooLong(input, m) && LengthError(l) == LengthError(m);
      assert m.0 == l.0;
    }
  }

  /** `MAX_LENGTHS` names each field once. */
  lemma MaxLengthsKeyed(l: (string, nat))
    requires l in MaxLengths
    ensures forall m :: m in MaxLengths && m.0 == l.0 ==> m == l
  {
  }

  /** The code as written raises on an enquiry sent as null; the corrected validation
      reports it as required and too short instead. */
  lemma NullEnquiryCrashesAsWritten(input: Input, rules: string -> bool)
    requires "enquiry" in input && input["enquiry"].None?
    ensures ValidateAsWritten(input, rules) == Err(TypeErrorOnNullEnquiry)
  {
  }

  lemma NullEnquiryReported(input: Input, rules: string -> bool)
    requires "enquiry" in input && input["enquiry"].None?
    ensures ValidateWith(input, rules, true).Ok?
    ensures RequiredError("enquiry") in Validate(input, rules)
    ensures ShortEnquiry in Validate(input, rules)
  {
    ValidateComplete(input, rules);
  }

  /** Apart from a null enquiry the two validations agree. */
  lemma ValidateAgrees(input: Input, rules: string -> bool)
    requires !("enquiry" in input && input["enquiry"].None?)
    ensures ValidateAsWritten(input, rules) == Ok(Validate(input, rules))
  {
  }

  // The mutation

  /** What the staff notification carries; phone and order number default to "N/A" when
      they were not sent. */
  datatype Payload = Payload(businessName: Option<string>, contactName: Option<string>, email: Option<string>,
                             phone: Option<string>, orderNumber: Option<string>, enquiry: Option<string>,
                             siteName: string, domain: string)

  function PayloadOf(input: Input, siteName: string, domain: string): (p: Payload)
    ensures "phone" !in input ==> p.phone == Some("N/A")
    ensures "order_number" !in input ==> p.orderNumber == Some("N/A")
    ensures "phone" in input ==> p.phone == input["phone"]
    ensures "order_number" in input ==> p.orderNumber == input["order_number"]
  {
    Payload(Get(input, "business_name"), Get(input, "contact_name"), Get(input, "email"),
            GetOr(input, "phone", "N/A"), GetOr(input, "order_number", "N/A"), Get(input, "enquiry"), siteName, domain)
  }

  datatype Submission = Submission(success: bool, errors: seq<FormError>, notification: Option<Payload>)

  /** `perform_mutation`, given the rate limiter's verdict for the client address. */
  function SubmitWith(input: Input, allowed: bool, retryAfter: Option<int>, siteName: string, domain: string,
                      rules: string -> bool, nullEnquiryIsEmpty: bool): Result<Submission, Crash>
    requires !allowed ==> retryAfter.Some?
  {
    if !allowed then
      Ok(Submission(false, [FormError(None, "Too many submissions. Please try again in " + IntToStr(retryAfter.value) + " seconds.")], None))
    else
      match ValidateWith(input, rules, nullEnquiryIsEmpty)
      case Err(e) => Err(e)
      case Ok(errs) =>
        if errs != [] then Ok(Submission(false, errs, None))
        else Ok(Submission(true, [], Some(PayloadOf(input, siteName, domain))))
  }

  function Submit(input: Input, allowed: bool, retryAfter: Option<int>, siteName: string, domain: string, rules: string -> bool): Submission
    requires !allowed ==> retryAfter.Some?
  {
    SubmitWith(input, allowed, retryAfter, siteName, domain, rules, true).value
  }

  /** The rate limit comes first: a refused request reports only the wait, whatever the
      input, and notifies nobody. The staff are notified exactly when the request is
      allowed and the input is clean, and then with the input's payload. */
  lemma SubmitSpec(input: Input, allowed: bool, retryAfter: Option<int>, siteName: string, domain: string, rules: string -> bool)
    requires !allowed ==> retryAfter.Some?
    ensures var s := Submit(input, allowed, retryAfter, siteName, domain, rules);
      && (!allowed ==> !s.success && s.notification.None? && |s.errors| == 1 && s.errors[0].field.None?)
      && (s.success <==> allowed && Validate(input, rules) == [])
      && (s.notification.Some? <==> s.success)
      && (s.success ==> s.notification == Some(PayloadOf(input, siteName, domain)) && s.errors == [])
      && (allowed && !s.success ==> s.errors == Validate(input, rules))
  {
  }

  /** With the contact-form limiter's verdict for the client's stored timestamps, a
      submission is refused exactly when the window already holds the maximum number of
      requests, and the refusal names the limiter's wait. */
  lemma SubmitUnderLimiter(input: Input, stored: seq<real>, now: real, maxSetting: Option<int>, windowSetting: Option<int>,
                           siteName: string, domain: string, rules: string -> bool)
    ensures var limits := ContactFormLimits(maxSetting, windowSetting);
      var o := Decide(stored, now, limits.0, limits.1);
      var valid := Recent(stored, now, limits.1);
      var s := Submit(input, o.allowed, o.retryAfter, siteName, domain, rules);
      && ((!s.success && s.notification.None? && s.errors == [FormError(None, "Too many submissions. Please try again in " + IntToStr(o.retryAfter.value) + " seconds.")])
          <== |valid| >= limits.0 && valid != [])
      && (|valid| < limits.0 ==> (s.success <==> Validate(input, rules) == []))
  {
    var limits := ContactFormLimits(maxSetting, windowSetting);
    DecideSpec(stored, now, limits.0, limits.1);
  }
}
