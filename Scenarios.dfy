/**
  Three uses of the contact form, proved from the contracts alone:
  a successful submission, a rejected one, and an empty form that never
  reaches the gateway.
 */
module Scenarios {
  import opened Wrappers
  import opened Schema
  import opened Controller

  /** A valid form is submitted, accepted and reset. */
  method SubmitAccepted(isEmail: string -> bool)
    requires isEmail("x@y.com")
  {
    var form := new ContactForm(isEmail);
    form.Edit(FormInputs(None, Some("x@y.com"), Some(""), "hi"));
    var started := form.Submit();
    assert started && form.isSubmitting && form.submitResult == None;
    form.Settle();
    assert !form.isSubmitting;
    assert form.submitResult == Some(SuccessMessage) && form.values == Blank;
  }

  /** The rejected address: the error message is shown and the values stay. */
  method SubmitRejected(isEmail: string -> bool)
    requires isEmail(RejectedAddress)
  {
    var form := new ContactForm(isEmail);
    var entered := FormInputs(None, Some(RejectedAddress), Some(""), "hi");
    form.Edit(entered);
    var started := form.Submit();
    assert started && form.isSubmitting;
    form.Settle();
    assert !form.isSubmitting;
    assert form.submitResult == Some(RejectedAddressMessage) && form.values == entered;
  }

  /** An empty form: both contact fields and the message are flagged, nothing is submitted. */
  method SubmitEmpty(isEmail: string -> bool)
  {
    var form := new ContactForm(isEmail);
    var entered := FormInputs(Some(""), Some(""), Some(""), "");
    form.Edit(entered);
    var errors := Validate(entered, isEmail);
    assert errors.email == [EitherRequired] && errors.phone == [EitherRequired];
    assert errors.message == [MessageRequired];
    var started := form.Submit();
    assert !started && !form.isSubmitting && form.submitResult == None;
  }

  /** A second press while submitting does nothing. */
  method DoublePress(isEmail: string -> bool)
    requires isEmail("x@y.com")
  {
    var form := new ContactForm(isEmail);
    form.Edit(FormInputs(None, Some("x@y.com"), None, "hi"));
    var first := form.Submit();
    var second := form.Submit();
    assert first && !second;
    assert form.isSubmitting && form.inFlight == Some(FormInputs(None, Some("x@y.com"), None, "hi"));
  }
}
