/**
  The contact form's submission controller: whether a submission is in
  flight, the result message shown under the form, and the form's values.
  The asynchronous wait for the gateway is split into two steps:
  `BeginSubmit` starts a submission and `Complete` settles it.
 */
module Controller {
  import opened Wrappers
  import opened Schema

  const SuccessMessage := "Form submitted successfully"
  /** The address the stand-in gateway rejects. */
  const RejectedAddress := "neexistujici@email.cz"
  const RejectedAddressMessage := "Neexistující emailová adresa"

  /** How a submission's promise settles. */
  datatype Outcome =
    | Resolved
    | RejectedWithError(message: string)  // rejected with an `Error` object
    | RejectedOther                       // rejected with anything else

  /** The stand-in gateway: rejects the one known non-existent address, accepts everything else. */
  function Gateway(data: FormInputs): (r: Outcome)
    ensures !r.RejectedOther?
    ensures r.RejectedWithError? <==> data.email == Some(RejectedAddress)
    ensures r.RejectedWithError? ==> r.message == RejectedAddressMessage
  {
    if data.email == Some(RejectedAddress) then RejectedWithError(RejectedAddressMessage)
    else Resolved
  }

  class ContactForm {
    /** The validation library's email syntax check. */
    const isEmail: string -> bool
    var isSubmitting: bool
    var submitResult: Option<string>
    /** The values currently entered in the form. */
    var values: FormInputs
    /** The values held by the submission in flight, if any. */
    var inFlight: Option<FormInputs>

    /**
      At most one submission is in flight, exactly while the form is
      submitting; it holds values that passed validation, and no result
      is shown meanwhile.
     */
    ghost predicate Valid()
      reads this
    {
      (isSubmitting <==> inFlight.Some?) &&
      (isSubmitting ==> submitResult == None && Validate(inFlight.value, isEmail).NoErrors())
    }

    constructor (isEmail: string -> bool)
      ensures Valid() && this.isEmail == isEmail
      ensures !isSubmitting && submitResult == None && values == Blank && inFlight == None
    {
      this.isEmail := isEmail;
      isSubmitting := false;
      submitResult := None;
      values := Blank;
      inFlight := None;
    }

    /** The user changes what is entered in the fields. */
    method Edit(v: FormInputs)
      requires Valid()
      modifies this
      ensures Valid() && values == v
      ensures isSubmitting == old(isSubmitting) && submitResult == old(submitResult)
      ensures inFlight == old(inFlight)
    {
      values := v;
    }

    /**
      The start of the submit handler: only validated values reach it, and
      only while the submit button is enabled.
     */
    method BeginSubmit(data: FormInputs)
      requires Valid() && !isSubmitting
      requires Validate(data, isEmail).NoErrors()
      modifies this
      ensures Valid() && isSubmitting && submitResult == None
      ensures inFlight == Some(data) && values == old(values)
    {
      isSubmitting := true;
      submitResult := None;
      inFlight := Some(data);
    }

    /**
      A press of the submit button: disabled while submitting; otherwise
      the values are validated and, only if they pass, handed to `BeginSubmit`.
     */
    method Submit() returns (started: bool)
      requires Valid()
      modifies this
      ensures Valid()
      ensures started <==> !old(isSubmitting) && Validate(old(values), isEmail).NoErrors()
      ensures started ==> isSubmitting && submitResult == None && inFlight == Some(old(values))
      ensures !started ==>
        isSubmitting == old(isSubmitting) && submitResult == old(submitResult) &&
        inFlight == old(inFlight)
      ensures values == old(values)
    {
      if isSubmitting {
        started := false;
      } else if !Validate(values, isEmail).NoErrors() {
        started := false;
      } else {
        BeginSubmit(values);
        started := true;
      }
    }

    /** The rest of the submit handler, once the submission's promise settles. */
    method Complete(outcome: Outcome)
      requires Valid() && isSubmitting
      modifies this
      ensures Valid() && !isSubmitting && inFlight == None
      ensures submitResult ==
        match outcome
        case Resolved => Some(SuccessMessage)
        case RejectedWithError(m) => Some(m)
        case RejectedOther => None
      ensures values == if outcome.Resolved? then Blank else old(values)
    {
      match outcome {
        case Resolved =>
          submitResult := Some(SuccessMessage);
          values := Blank;
        case RejectedWithError(m) =>
          submitResult := Some(m);
        case RejectedOther =>
      }
      isSubmitting := false;
      inFlight := None;
    }

    /** The submission in flight settles as the stand-in gateway decides. */
    method Settle()
      requires Valid() && isSubmitting
      modifies this
      ensures Valid() && !isSubmitting && inFlight == None
      ensures old(inFlight).value.email == Some(RejectedAddress) ==>
        submitResult == Some(RejectedAddressMessage) && values == old(values)
      ensures old(inFlight).value.email != Some(RejectedAddress) ==>
        submitResult == Some(SuccessMessage) && values == Blank
    {
      Complete(Gateway(inFlight.value));
    }
  }
}
