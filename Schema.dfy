/**
  The contact form's validation schema: a pure function from the four
  form values to the error messages each field's tests produce.

  Every test of a field runs (the resolver validates with `abortEarly: false`),
  so each field gets the messages of all its failing tests, in the order the
  tests are declared.
 */
module Schema {
  import opened Wrappers

  /**
    The values the form submits. For `email` and `phone`, which are nullable,
    `None` is an absent (`undefined`) or `null` value; for `name` it is
    `undefined` only. `message` is always a string.
   */
  datatype FormInputs = FormInputs(
    name: Option<string>,
    email: Option<string>,
    phone: Option<string>,
    message: string)

  /** The error messages collected for each field. */
  datatype FieldErrors = FieldErrors(
    name: seq<string>,
    email: seq<string>,
    phone: seq<string>,
    message: seq<string>)
  {
    predicate NoErrors() {
      name == [] && email == [] && phone == [] && message == []
    }
  }

  const InvalidEmail := "Invalid email address"
  const EitherRequired := "Either email or phone is required"
  const InvalidPhone := "Invalid phone number"
  const MessageRequired := "Message is required"

  /** The values after the form is reset: every field empty. */
  const Blank := FormInputs(None, None, None, "")

  /** JavaScript truthiness of an optional string: present and not empty. */
  predicate Truthy(o: Option<string>) {
    o.Some? && o.value != ""
  }

  predicate IsDigit(c: char) {
    '0' <= c <= '9'
  }

  predicate AllDigits(s: string) {
    forall i :: 0 <= i < |s| ==> IsDigit(s[i])
  }

  /** The "email-or-phone" test attached to the email field. */
  function EmailOrPhone(v: FormInputs): (ok: bool)
    ensures !ok <==>
      (v.email == None || v.email == Some("")) && (v.phone == None || v.phone == Some(""))
  {
    Truthy(v.email) || Truthy(v.phone)
  }

  /** The "phone-or-email" test attached to the phone field: the same rule, read from the other side. */
  function PhoneOrEmail(v: FormInputs): (ok: bool)
    ensures !ok <==>
      (v.phone == None || v.phone == Some("")) && (v.email == None || v.email == Some(""))
    ensures ok == EmailOrPhone(v)
  {
    Truthy(v.phone) || Truthy(v.email)
  }

  /**
    Recogniser for the tail `[0-9]{lo,hi}$` of the phone pattern:
    s is a run of between lo and hi ASCII digits and nothing else.
   */
  function DigitRun(s: string, lo: nat, hi: nat): (r: bool)
    ensures r <==> lo <= |s| <= hi && AllDigits(s)
    decreases |s|
  {
    if |s| == 0 then lo == 0
    else hi > 0 && IsDigit(s[0]) && DigitRun(s[1..], if lo > 0 then lo - 1 else 0, hi - 1)
  }

  /**
    Recogniser for the whole pattern `^\+?[0-9]{10,14}$`. The result is
    stated as the regular expression's two alternatives: with the `+`, or without it.
   */
  function PhonePattern(s: string): (r: bool)
    ensures r <==>
      (|s| > 0 && s[0] == '+' && 10 <= |s| - 1 <= 14 && AllDigits(s[1..])) ||
      (10 <= |s| <= 14 && AllDigits(s))
  {
    if |s| > 0 && s[0] == '+' then
      assert !IsDigit(s[0]);
      DigitRun(s[1..], 10, 14)
    else
      DigitRun(s, 10, 14)
  }

  /** The "is-valid-phone" test: an empty or absent phone passes, any other must match the pattern. */
  function PhoneShapeOk(phone: Option<string>): (ok: bool)
    ensures phone == None || phone == Some("") ==> ok
    ensures phone.Some? && phone.value != "" ==>
      (ok <==>
        (phone.value[0] == '+' && 10 <= |phone.value| - 1 <= 14 && AllDigits(phone.value[1..])) ||
        (10 <= |phone.value| <= 14 && AllDigits(phone.value)))
  {
    !Truthy(phone) || PhonePattern(phone.value)
  }

  /**
    Messages of the email field. `isEmail` is the email syntax check of the
    validation library; like that library, it is only asked about
    non-empty strings.
   */
  function EmailErrors(v: FormInputs, isEmail: string -> bool): (r: seq<string>)
    ensures forall m :: m in r ==> m == InvalidEmail || m == EitherRequired
    ensures InvalidEmail in r <==> Truthy(v.email) && !isEmail(v.email.value)
    ensures EitherRequired in r <==> !Truthy(v.email) && !Truthy(v.phone)
    ensures |r| <= 1
    ensures r == [] <==> EmailOrPhone(v) && (Truthy(v.email) ==> isEmail(v.email.value))
  {
    (if Truthy(v.email) && !isEmail(v.email.value) then [InvalidEmail] else [])
    + (if EmailOrPhone(v) then [] else [EitherRequired])
  }

  /** Messages of the phone field: the cross-field test, then the pattern test. */
  function PhoneErrors(v: FormInputs): (r: seq<string>)
    ensures forall m :: m in r ==> m == EitherRequired || m == InvalidPhone
    ensures EitherRequired in r <==> !Truthy(v.phone) && !Truthy(v.email)
    ensures InvalidPhone in r <==> Truthy(v.phone) && !PhonePattern(v.phone.value)
    ensures |r| <= 1
    ensures r == [] <==> PhoneOrEmail(v) && PhoneShapeOk(v.phone)
  {
    (if PhoneOrEmail(v) then [] else [EitherRequired])
    + (if PhoneShapeOk(v.phone) then [] else [InvalidPhone])
  }

  /** Messages of the message field: it is required. */
  function MessageErrors(v: FormInputs): (r: seq<string>)
    ensures forall m :: m in r ==> m == MessageRequired
    ensures r == [] <==> v.message != ""
    ensures |r| <= 1
  {
    if v.message == "" then [MessageRequired] else []
  }

  /** The whole schema. */
  function Validate(v: FormInputs, isEmail: string -> bool): (r: FieldErrors)
    // name is optional and carries no test
    ensures r.name == []
    // both contact fields empty: each of them carries the cross-field error, and only it
    ensures !Truthy(v.email) && !Truthy(v.phone) ==>
      r.email == [EitherRequired] && r.phone == [EitherRequired]
    // one contact field present: neither carries the cross-field error
    ensures Truthy(v.email) || Truthy(v.phone) ==>
      EitherRequired !in r.email && EitherRequired !in r.phone
    ensures EitherRequired in r.email <==> EitherRequired in r.phone
    // the email syntax is only checked on a non-empty email
    ensures InvalidEmail in r.email <==> Truthy(v.email) && !isEmail(v.email.value)
    // the phone pattern is only checked on a non-empty phone
    ensures InvalidPhone in r.phone <==> Truthy(v.phone) && !PhonePattern(v.phone.value)
    // no field fails both of its tests at once, and no other message appears
    ensures |r.email| <= 1 && |r.phone| <= 1
    ensures forall m :: m in r.email ==> m == InvalidEmail || m == EitherRequired
    ensures forall m :: m in r.phone ==> m == EitherRequired || m == InvalidPhone
    // a field whose own tests pass has no error
    ensures r.email == [] <==> EmailOrPhone(v) && (Truthy(v.email) ==> isEmail(v.email.value))
    ensures r.phone == [] <==> EmailOrPhone(v) && PhoneShapeOk(v.phone)
    // message is required, whatever the other fields hold
    ensures r.message == (if v.message == "" then [MessageRequired] else [])
    // the form is valid exactly when every rule is met
    ensures r.NoErrors() <==>
      (Truthy(v.email) || Truthy(v.phone)) &&
      (Truthy(v.email) ==> isEmail(v.email.value)) &&
      (Truthy(v.phone) ==> PhonePattern(v.phone.value)) &&
      v.message != ""
  {
    FieldErrors([], EmailErrors(v, isEmail), PhoneErrors(v), MessageErrors(v))
  }

  /** An absent and an empty contact value are validated alike. */
  lemma AbsentIsEmpty(v: FormInputs, isEmail: string -> bool)
    ensures Validate(v.(email := None), isEmail) == Validate(v.(email := Some("")), isEmail)
    ensures Validate(v.(phone := None), isEmail) == Validate(v.(phone := Some("")), isEmail)
  {
  }

  /** The schema depends on the email syntax check only through non-empty strings. */
  lemma EmailSyntaxOnlyOnNonEmpty(v: FormInputs, p: string -> bool, q: string -> bool)
    requires forall s :: s != "" ==> p(s) == q(s)
    ensures Validate(v, p) == Validate(v, q)
  {
  }

  /** A plus sign followed by twelve digits is a phone number. */
  lemma PlusPhoneAccepted()
    ensures PhonePattern("+420123456789")
  {
    var d := "420123456789";
    assert forall i :: 0 <= i < |d| ==> IsDigit(d[i]);
    assert "+420123456789"[1..] == d;
  }

  /** Nine digits are too few, and a second plus sign or a dash is refused. */
  lemma MalformedPhonesRefused()
    ensures !PhonePattern("123456789")
    ensures !PhonePattern("++1234567890")
    ensures !PhonePattern("12345-67890")
  {
    assert !IsDigit("++1234567890"[1..][0]);
    assert !IsDigit("12345-67890"[5]);
  }
}
