# Contact form of the Mantaray agency website, modelled in Dafny

The website's contact feature has two halves joined by one HTTP call.

* The **contact endpoint** (`POST /api/contact`) first checks that name, email
  and message are present and non-empty. Otherwise it answers
  400 `{error: "Missing required fields"}` before doing anything else. It
  then builds two HTML emails from fixed markup and HTML-escaped user values:
  a notification to the operator and a confirmation to the submitter. It
  sends them one after the other through an external provider. It answers
  200 `{success: true}`, or 500 `{error: "Failed to send email"}` as soon as
  a send throws.
* The **contact page** holds a five-field draft, an in-progress flag and a
  status (`idle`, `success`, `error`). Field edits, the submit handler and
  the two "back to the form" buttons change them.

Files:

* `html_escape.dfy`, module `HtmlEscape`: the escaper, which maps
  `& < > " '` to `&amp; &lt; &gt; &quot; &#039;`. The module proves that
  the output holds no raw `< > " '`, that every `&` in it opens one of the
  five entities, that escaping is character-wise and is the identity exactly
  on strings without special characters, and that an `Unescape` function
  inverts it.
* `contact_route.dfy`, module `ContactRoute`: the request, the response, the
  templates and the handler. A template is a list of pieces. A `Lit` piece is
  fixed markup. An `Esc` piece is a user value, rendered through
  `EscapeHtml`. The email provider is the class `Mailer`. Its `Send` either
  returns or throws; the model chooses freely which. Every attempt is logged
  in a ghost field. `Post` is proved against the pure function `Expected`,
  evaluated at the provider's recorded answers. The lemmas about `Expected`
  state the order of the sends, their addresses and the responses.
* `contact_page.dfy`, module `ContactPage`: the class `ContactForm` with one
  method per transition. `handleSubmit` is split at its `await`:
  `BeginSubmit` runs up to the fetch and `CompleteSubmit` runs once the fetch
  has settled. Field edits in between are allowed, because the form's inputs
  stay enabled while a request is in flight. The guards that the rendering
  imposes are preconditions. The form and its handlers exist only in the
  `idle` state (`FormShown`). The submit button is disabled while submitting
  (`CanSubmit`). `Valid()` is the invariant that a request is in flight only
  in the `idle` state. Every transition keeps it.

Where the design description and the code differ, the model follows the
code. The endpoint does not check that `service` is one of the services the
page offers, and neither does the model. The "Try Again" button keeps the
draft (`TryAgain`, `RetryKeepsDraft`). The notification's subject line uses
the raw, unescaped name, since a subject is not HTML.

## Model

| member | source | states |
|---|---|---|
| `HtmlEscape.EscapeChar` | app/api/contact/route.ts:167-173 | each of the five special characters becomes a multi-character entity that starts with `&` and has no other `&`; every other character maps to itself; no result holds a raw `< > " '` |
| `HtmlEscape.EscapeHtml` | app/api/contact/route.ts:166-175 | the escaped text contains no raw `<`, `>`, `"` or `'` and is never shorter than the input |
| `HtmlEscape.EscapedAmpersandsOpenEntities` | app/api/contact/route.ts:167-174 | every `&` in escaped text is the first character of `&amp;`, `&lt;`, `&gt;`, `&quot;` or `&#039;` |
| `HtmlEscape.EscapeConcat` | app/api/contact/route.ts:174 | escaping works character by character: escape(a + b) = escape(a) + escape(b) |
| `HtmlEscape.EscapeIdentityIff` | app/api/contact/route.ts:174 | escaping leaves a string unchanged if and only if it contains none of the five special characters |
| `HtmlEscape.UnescapeEscape` | app/api/contact/route.ts:166-175 | decoding the five entities in escaped text gives back the original input |
| `HtmlEscape.EscapeInjective` | app/api/contact/route.ts:166-175 | two inputs with the same escaped form are equal |
| `ContactRoute.Truthy` | app/api/contact/route.ts:14 | definitional: JavaScript truthiness of an optional string field (present and non-empty), the test used at route.ts:14, 49, 55 and 124 |
| `ContactRoute.HasRequired` | app/api/contact/route.ts:14 | definitional: name, email and message are all truthy; its meaning for the handler is stated by `MissingFieldsNoSend` |
| `ContactRoute.NotificationPieces` | app/api/contact/route.ts:26-75 | definitional: the notification body as fixed markup and escaped name, email (twice), optional company and service rows, and message; its properties are in `NotificationFields` and `NotificationSkeleton` |
| `ContactRoute.Notification` | app/api/contact/route.ts:22-76 | definitional: email #1, from the fixed sender to the fixed operator address, subject with the raw name, body rendered from `NotificationPieces`; its addresses are stated by `SendsInOrder` |
| `ContactRoute.ConfirmationPieces` | app/api/contact/route.ts:83-153 | definitional: the confirmation body as fixed markup and escaped name, service or "General inquiry", and message; its properties are in `ConfirmationFields` |
| `ContactRoute.Confirmation` | app/api/contact/route.ts:79-154 | definitional: email #2, from the fixed sender to the submitter's email, fixed subject, body rendered from `ConfirmationPieces`; its addresses are stated by `SendsInOrder` |
| `ContactRoute.Expected` | app/api/contact/route.ts:8-164 | definitional: the handler's decision logic as a value (no send and 400 without the required fields; otherwise notification, then confirmation, stopping with 500 at the first throw; 200 otherwise); its properties are in `MissingFieldsNoSend`, `SendsInOrder` and `ResponseReflectsSends`, and `Post` is proved equal to it |
| `ContactRoute.RenderAddsNoMarkup` | app/api/contact/route.ts:26-153 | in a rendered template, each of `< > " '` occurs exactly as often as in the fixed markup: user values add none |
| `ContactRoute.NotificationFields` | app/api/contact/route.ts:41-63 | the notification interpolates, through the escaper and in this order: name, email (link target and text), company only if truthy, service only if truthy, message |
| `ContactRoute.NotificationSkeleton` | app/api/contact/route.ts:26-75 | the notification's fixed markup depends on the request only through whether it shows the company row and the service row |
| `ContactRoute.ConfirmationFields` | app/api/contact/route.ts:111-128 | the confirmation interpolates name, service only if truthy, and message, through the escaper; when the service is not truthy its slot holds the fixed text "General inquiry" |
| `ContactRoute.NotificationMarkupFixed` | app/api/contact/route.ts:26-75 | two valid requests that show the same optional rows yield notification bodies with the same number of `< > " '`, whatever the user typed |
| `ContactRoute.ConfirmationMarkupFixed` | app/api/contact/route.ts:83-153 | two valid requests that agree on whether a service is given yield confirmation bodies with the same number of `< > " '` |
| `ContactRoute.Mailer.Send` | app/api/contact/route.ts:22-25 | a send either returns or throws; either way the attempt, with its email and outcome, is appended to the provider's log |
| `ContactRoute.Post` | app/api/contact/route.ts:8-164 | the handler only appends to the provider's log; what it appends and what it answers are exactly `Expected` evaluated at the outcomes the provider gave |
| `ContactRoute.MissingFieldsNoSend` | app/api/contact/route.ts:14-19 | the answer is 400 "Missing required fields" if and only if name, email or message is absent or empty, and then no send is attempted |
| `ContactRoute.SendsInOrder` | app/api/contact/route.ts:21-81 | with the required fields present, the first send goes from `contact@email.mantaray.digital` to `contact@mantaray.digital`; the second is attempted only if the first returned, and goes from the same sender to the submitter's email; there are no others |
| `ContactRoute.ResponseReflectsSends` | app/api/contact/route.ts:156-162 | the answer is 200 `{success: true}` if and only if neither send threw; it is 500 "Failed to send email" if and only if one did; only the last attempt can have thrown |
| `ContactRoute.PostTwice` | app/api/contact/route.ts:8-164 | two identical successful requests make four sends: nothing is deduplicated |
| `ContactPage.WithField` | app/contact/page.tsx:48-50 | an edit sets exactly the named field and leaves the other four unchanged |
| `ContactPage.WithFieldLaws` | app/contact/page.tsx:48-50 | writing a field's own value back is a no-op; a second edit of a field overrides the first |
| `ContactPage.ToRequest` | app/contact/page.tsx:31 | the posted body (all five draft fields as strings, empty ones included) passes the endpoint's presence check if and only if the draft's name, email and message are non-empty; its company and service rows appear if and only if those fields are non-empty; the confirmation is then addressed to the draft's email |
| `ContactPage.ContactForm.constructor` | app/contact/page.tsx:8-16 | initially all five fields are empty, nothing is in flight and the status is idle |
| `ContactPage.ContactForm.Change` | app/contact/page.tsx:48-50 | an edit in the shown form changes the draft by `WithField` and nothing else |
| `ContactPage.ContactForm.BeginSubmit` | app/contact/page.tsx:20-32 | starting a submit sets the in-progress flag and the idle status and posts the current draft unchanged; it is possible only from the shown form with the button enabled |
| `ContactPage.ContactForm.CompleteSubmit` | app/contact/page.tsx:34-45 | an ok response sets success and empties the draft; a non-ok response or a rejected fetch sets error and keeps the draft; the in-progress flag is cleared in all three cases |
| `ContactPage.ContactForm.FormShown` | app/contact/page.tsx:236-314 | definitional: the form, with its inputs and submit button, is rendered only when the status is idle; a precondition of `Change` and `BeginSubmit` |
| `ContactPage.ContactForm.CanSubmit` | app/contact/page.tsx:440 | definitional: the form is shown and the submit button is not disabled by `isSubmitting`; the precondition of `BeginSubmit` |
| `ContactPage.ContactForm.SendAnother` | app/contact/page.tsx:259 | from the success panel, back to idle with the submit button enabled; the draft and the flag are untouched |
| `ContactPage.ContactForm.TryAgain` | app/contact/page.tsx:300 | from the error panel, back to idle with the submit button enabled; the draft and the flag are untouched |
| `ContactPage.RetryKeepsDraft` | app/contact/page.tsx:272-314 | a failed submit followed by "Try Again" shows the form again, submittable, with the draft exactly as it was |
| `ContactPage.SendAnotherStartsEmpty` | app/contact/page.tsx:236-271 | a successful submit followed by "send another" shows the form again, submittable, with an empty draft |

## Left out

- Page layout, inline styles, icons, the media query and the contact-info cards: they are presentation only.
- The translation lookup and the list of services taken from it: labels are not modelled, and the service is free text.
- `fetch`, `response.ok` and React's state-update scheduling: the fetch outcome is a parameter of `CompleteSubmit`. Two submits fired before React re-renders the disabled button are not modelled.
- The browser's constraint validation (`required` on name, email and message, `type="email"`): the model lets a submit start with any draft, including drafts the browser would block.
- The provider client, its API key and what `emails.send` returns. The handler ignores the returned value, so the model distinguishes only "returns" from "throws". An error that the provider reports in its return value counts as a success, as it does in the code.
- JSON parsing of the request: the model's request fields are absent or strings, so it does not cover other bodies. In the code, a truthy non-string field (a non-zero number, `true`, an object) passes the checks but makes `escapeHtml` throw: 500, no send. A falsy one (`0`, `false`) behaves as absent. A body that is not JSON, or a JSON `null`, throws before the checks: 500, no send. A JSON number or string leaves every field undefined: 400.
- The literal text and CSS of the two HTML templates: the markup fragments are abbreviated. The model keeps which fields are interpolated, in what order, the optional rows and the fallback text.
- The error logging of both halves.
- Concurrency between requests: each request is handled on its own, with no shared state.
