# Contact form: validation schema and submission controller

This project models the logic of a client-side contact form with four
fields: `name`, `email`, `phone` and `message`. The logic has two parts.

- **The validation schema** (`Schema.dfy`) is a pure function from the
  form's values to the error messages of each field:
  - `name` is free.
  - `email` and `phone` each carry the symmetric rule "Either email or
    phone is required".
  - `email`, when non-empty, must pass the validation library's email
    syntax check.
  - `phone`, when non-empty, must be an optional `+` followed by 10 to 14
    ASCII digits. The code states this as the regular expression
    `^\+?[0-9]{10,14}$`. Here it is a character-level recogniser.
  - `message` is required.

  A JavaScript truthiness test (`!!value`) becomes `Truthy`: the value is
  present and is not the empty string. Every test of a field runs, so each
  field gets the messages of all its failing tests, in the order the tests
  are declared.
- **The submission controller** (`Controller.dfy`) is a class
  `ContactForm` with the component's state: `isSubmitting`,
  `submitResult`, the current `values`, and `inFlight`, the values held by
  the pending submit call. The asynchronous submit handler is split into
  two steps. `BeginSubmit` marks the form as submitting and clears the
  result. `Complete` settles the submission with an `Outcome`. `Settle`
  takes that outcome from the stand-in gateway. `Submit` is a press of the
  submit button. The button is disabled while a submission is in flight,
  and only values that pass `Validate` reach `BeginSubmit`. The invariant
  `Valid` says three things: at most one submission is in flight, and only
  while `isSubmitting` is true; the in-flight values passed validation; no
  result message is shown while submitting.

`Scenarios.dfy` holds client methods proved from the contracts alone: a
submission that is accepted and resets the form, the rejected address
whose message is shown while the values stay, an empty form that never
reaches the gateway, and a second press while submitting.

`Validate` is a function, so validating the same values twice gives the same
errors by construction.

## Model

| member | source | states |
|---|---|---|
| Schema.Validate | src/components/forms/contact-form/contact-form.tsx:17-49 | Combines the four fields' tests; `Truthy` is JavaScript's `!!`, used at lines 28 and 39. `name` never has an error. When email and phone are both empty or absent, each of the two fields gets exactly "Either email or phone is required". When either one is non-empty, neither field gets that error. The email syntax error appears iff the email is non-empty and fails the syntax check. The phone pattern error appears iff the phone is non-empty and fails the pattern. No field fails two tests at once, and no field gets a message other than its own tests'. A field whose own tests pass has no error. An empty `message` yields exactly "Message is required", whatever the other fields hold. The form has no errors iff all four rules hold. |
| Schema.EmailOrPhone | src/components/forms/contact-form/contact-form.tsx:26-29 | The email field's cross-field test fails iff the email and the phone are each absent, `null` or the empty string. |
| Schema.PhoneOrEmail | src/components/forms/contact-form/contact-form.tsx:37-40 | The phone field's cross-field test fails iff the phone and the email are each absent, `null` or the empty string. It agrees with the email field's test, so the rule is symmetric. |
| Schema.PhoneShapeOk | src/components/forms/contact-form/contact-form.tsx:42-47 | An absent, `null` or empty phone passes the "is-valid-phone" test. Any other phone passes iff it is a `+` followed by 10 to 14 digits, or 10 to 14 digits alone. |
| Schema.EmailErrors | src/components/forms/contact-form/contact-form.tsx:19-30 | The email field gets at most one message: "Invalid email address" iff the email is non-empty and fails the syntax check, and "Either email or phone is required" iff both contact fields are empty. It has no error iff both of its tests pass. |
| Schema.PhoneErrors | src/components/forms/contact-form/contact-form.tsx:31-47 | The phone field gets at most one message: "Either email or phone is required" iff both contact fields are empty, and "Invalid phone number" iff the phone is non-empty and fails the pattern. It has no error iff both of its tests pass. |
| Schema.MessageErrors | src/components/forms/contact-form/contact-form.tsx:48 | The message field has an error iff the message is empty, and that error is "Message is required". |
| Schema.DigitRun | src/components/forms/contact-form/contact-form.tsx:46 | The recogniser for `[0-9]{lo,hi}$` accepts a string iff it consists only of ASCII digits and its length lies between lo and hi. |
| Schema.PhonePattern | src/components/forms/contact-form/contact-form.tsx:46 | A string is accepted iff it matches one of the two alternatives of `^\+?[0-9]{10,14}$`: a `+` followed by 10 to 14 digits, or 10 to 14 digits alone. |
| Schema.AbsentIsEmpty | src/components/forms/contact-form/contact-form.tsx:26-44 | An absent (`null`/`undefined`) email or phone is validated exactly like an empty string. |
| Schema.EmailSyntaxOnlyOnNonEmpty | src/components/forms/contact-form/contact-form.tsx:19-22 | Two email syntax checks that agree on non-empty strings give identical errors, so the check is only consulted on non-empty emails. |
| Schema.PlusPhoneAccepted | src/components/forms/contact-form/contact-form.tsx:46 | `+420123456789` passes the phone pattern. |
| Schema.MalformedPhonesRefused | src/components/forms/contact-form/contact-form.tsx:46 | Nine digits, a doubled `+`, and a dash inside the digits are all refused. |
| Controller.Gateway | src/components/forms/contact-form/contact-form.tsx:69-77 | The stand-in gateway rejects iff the email is exactly `neexistujici@email.cz`. It then rejects with an `Error` whose message is "Neexistující emailová adresa". It never rejects with a non-`Error` value. |
| Controller.ContactForm.constructor | src/components/forms/contact-form/contact-form.tsx:60-61 | The form starts not submitting, with no result shown, with empty values and nothing in flight. |
| Controller.ContactForm.Edit | src/components/forms/contact-form/contact-form.tsx:97-122 | Typing into the registered fields replaces the values and changes nothing else. |
| Controller.ContactForm.BeginSubmit | src/components/forms/contact-form/contact-form.tsx:63-66 | Requires values that pass validation and a form that is not already submitting. Sets `isSubmitting`, clears `submitResult` to none before the gateway is consulted, and keeps the values. |
| Controller.ContactForm.Submit | src/components/forms/contact-form/contact-form.tsx:93-126 | A submission starts iff the form is not submitting and its values pass validation. Otherwise the press is a no-op: a disabled button, or validation errors with no call to the handler. |
| Controller.ContactForm.Complete | src/components/forms/contact-form/contact-form.tsx:78-86 | On every outcome `isSubmitting` ends false and nothing is left in flight. Resolved: the result is "Form submitted successfully" and the values are reset to empty. Rejected with an `Error`: the result is its message and the values stay. Rejected with anything else: the result stays none and the values stay. |
| Controller.ContactForm.Settle | src/components/forms/contact-form/contact-form.tsx:69-86 | For the rejected address the result is "Neexistující emailová adresa" and the values are unchanged. For every other in-flight submission the result is "Form submitted successfully" and the values are reset. `isSubmitting` ends false in both cases. |

## Left out

- Email syntax: the validation library's email regular expression is not modelled. Its syntax check is a parameter `isEmail` of `Validate` and a constant of `ContactForm`, so every property here holds for any email syntax.
- Time and concurrency: the 3000 ms timer, promises and `async` are not modelled. A submission is two discrete steps, `BeginSubmit` and then `Complete` (or `Settle`). A submission that never settles stays in `isSubmitting` indefinitely, as in the code.
- React state scheduling: `useState`/`useCallback` batching is not modelled. State updates take effect at once, so very fast repeated clicks that would slip past the disabled button are not modelled.
- Form library internals: react-hook-form's field registration, the `handleSubmit` and `reset` internals, the display of the first error, `errors.root`, the spinner, CSS classes and the `aria-live` region are not modelled. `reset()` is modelled as setting the values to `Blank`: every optional field absent and an empty message.
- Field renderers: the label, `aria-invalid` and alert-span presentation in `input-field.tsx` and `text-area-field.tsx` is not modelled. The form never enables their `required` option.
- Non-`Error` rejections: the stand-in gateway never produces one. `Complete` still models the code's catch branch, which leaves the result empty. The model follows the code here; it does not add a fallback message.
- Undefined message: `message` is always a string, as its declared type says. An undefined message is not modelled.
