# Contact form controller of the landing page

The landing page's only logic is its contact form, inside the `App` component
of `src/App.js`. The component keeps three pieces of state: `formState`
(idle, loading, success or error), `formData` (five strings: first name,
last name, email, company, message) and `errors` (a map from field to the
message shown beside it). Three handlers change that state:

- `validateForm` builds a fresh error map. Each field must be non-blank after
  `trim()`. The email must also contain a match of `/\S+@\S+\.\S+/`.
- `handleInputChange` writes one field. If that field shows an error, it
  blanks the error.
- `handleSubmit` validates the form, then posts it, then shows success
  (and empties the form) or error. A 5-second timer sets it back to idle.

This project models those handlers in Dafny and proves what they guarantee.

Files and modules:

- `js_text.dfy`, module `JsText`: the white-space class of ECMA-262
  (section 12.2, White Space, and section 12.3, Line Terminators) and
  `String.prototype.trim`.
- `email_pattern.dfy`, module `EmailPattern`: the regular expression, written
  two ways. `MatchesEmailPattern` states it as "some substring matches
  `\S+@\S+\.\S+`". `HasEmailWitness` states it with two positions, the `@`
  and the `.`. A lemma proves the two agree.
- `form.dfy`, module `Form`: the fields, the form record, the six messages,
  `Validate` (the pure part of `validateForm`) and `ClearError` (the
  error-map part of `handleInputChange`), with the lemmas about them.
- `controller.dfy`, module `Controller`: the class `ContactForm` with the
  component's three state fields, and one method per handler or event.
  `Submit` covers `handleSubmit` up to the request. The request settling is
  the event `OnResponse`, and the reset timer firing is the event `OnTimer`.
  Two ghost counters record requests not yet answered and timers not yet
  fired. The invariant `Valid()` says a loading form has a request
  outstanding. It also says a success or error banner has a timer armed to
  reset it. Scenario methods at the end run whole submissions.

## Model

| member | source | states |
|---|---|---|
| `JsText.LeadingWhitespace` | src/App.js:51 | the length of the white-space run that a string starts with: every character before it is white space, the one at it is not |
| `JsText.TrailingWhitespaceStart` | src/App.js:51 | where the white-space run that a string ends with begins: every character from it on is white space, the one before it is not |
| `JsText.Trim` | src/App.js:51-59 | `trim()` is empty exactly when the string is blank; otherwise it starts and ends with a non-white-space character |
| `JsText.TrimIsSlice` | src/App.js:51-59 | `trim()` is the string with a blank prefix and a blank suffix removed |
| `EmailPattern.MatchesEmailPatternIffWitness` | src/App.js:55 | the unanchored test of `\S+@\S+\.\S+` succeeds exactly when there is an `@` after a non-white-space character, then a non-empty non-white-space run, then a `.`, then a non-white-space character |
| `EmailPattern.NoAtNoMatch` | src/App.js:55 | a string with no `@` fails the email pattern |
| `Form.FormData.With` | src/App.js:102 | `{ ...prev, [field]: value }` gives the edited field the new value and keeps the other four |
| `Form.Validate` | src/App.js:48-63 | every message in the error map is non-empty, so every entry is shown |
| `Form.Require` | src/App.js:51-52 | one required-field step adds that field's "… is required" message exactly when the value is blank, and keeps every other entry |
| `Form.CheckEmail` | src/App.js:53-57 | the email step stores "Email is required" for a blank value, "Please enter a valid email" for a non-blank value failing the pattern, and nothing otherwise |
| `Form.ValidateRequiredField` | src/App.js:51-59 | first name, last name, company and message each have an error exactly when blank, and that error is the field's own "… is required" message |
| `Form.ValidateEmailField` | src/App.js:53-57 | the email has "Email is required" exactly when blank, "Please enter a valid email" exactly when non-blank and failing the pattern, only one of the two, and no error otherwise |
| `Form.ValidateEmptyIffComplete` | src/App.js:49-62 | the error map has no keys exactly when all five fields are non-blank and the email matches the pattern |
| `Form.ClearError` | src/App.js:103-105 | editing a field that shows an error sets that error to `''` and keeps the key; other entries, and the whole map when the field shows no error, are unchanged |
| `Form.ValidateEmptyForm` | src/App.js:48-63 | the all-blank form gets five entries, one per field, each with its own required message |
| `Form.ValidateJohnDoe` | src/App.js:48-63 | John / Doe / `john@example.com` / Acme / Hi gets no errors |
| `Form.ValidateNotAnEmail` | src/App.js:53-57 | the same form with email `not-an-email` gets exactly `{email: 'Please enter a valid email'}` |
| `Controller.ContactForm.constructor` | src/App.js:21-29 | the component starts idle, with five empty fields and no errors |
| `Controller.ContactForm.ValidateForm` | src/App.js:48-63 | the stored errors become exactly the new map, with nothing kept from earlier attempts; the result is true exactly when the map is empty and the form is complete |
| `Controller.ContactForm.Submit` | src/App.js:65-85 | an incomplete form only gets its errors, with state and fields unchanged and no request sent; a complete one goes to loading and sends its five fields |
| `Controller.ContactForm.OnResponse` | src/App.js:87-98 | a 2xx response gives success and empties all five fields; any other status, or a thrown request, gives error with the fields kept; either way one reset timer is armed and the errors are untouched |
| `Controller.ContactForm.OnTimer` | src/App.js:90-97 | the reset timer sets the state to idle and changes nothing else |
| `Controller.ContactForm.Edit` | src/App.js:101-106 | the field takes the typed value, the other four keep theirs, and the error map changes only by clearing that field's error |
| `Controller.Fill` | src/App.js:101-106 | typing all five fields leaves the form equal to the typed values |
| `Controller.SuccessfulSubmission` | src/App.js:65-90 | a complete form answered with a 2xx status: the request carries the form, the state goes loading, then success with all fields empty, then idle |
| `Controller.FailedSubmission` | src/App.js:87-98 | a complete form answered with a non-2xx status, or whose request throws: error with the fields kept, then idle |
| `Controller.RejectedSubmission` | src/App.js:65-68 | an incomplete form sends nothing, stays idle and shows exactly the non-empty `Validate` map |
| `Controller.ResubmitBeforeReset` | src/App.js:90-97 | resubmitting while an error banner's timer is armed: that timer sets the form to idle while the new request is still outstanding |

Notes on the source as written:

- The submit button and the inputs are disabled only while `formState` is
  `'loading'` (src/App.js:300-359). So the form can be submitted again from
  success or error, not only from idle. An earlier timer then fires during
  the new request (`ResubmitBeforeReset`). The handlers do not check the
  state themselves, so `Submit` and `Edit` have no precondition on it.
- An invalid submission leaves `formState` as it was, which need not be idle.
- Editing a field writes `''` into its error and does not delete the key.
  The rendering tests the error for truthiness (`errors.firstName && …`),
  so this is what `HasError` reads.

## Left out

- The JSX markup, CSS classes and icons (src/App.js:108-449): rendering only.
- Mouse tracking (src/App.js:20, 31-37): a decorative listener with no effect on the form.
- `scrollToContact` and `openCalendly` (src/App.js:39-46): browser navigation side effects.
- The `fetch` call itself, its URL, headers and `JSON.stringify` body (src/App.js:73-85). `Submit` returns the five-field form that the body carries, and `OnResponse` receives the outcome (a status or a thrown error).
- Elapsed time. Each `setTimeout(…, 5000)` is one armed timer, and `OnTimer` fires the one the environment picks. The model does not say which pending timer fires first.
- React's batching of state updates and the suspension at `await`. Each handler step is one atomic update of the three fields.
- `event.preventDefault()` (src/App.js:66): a browser default, no state.
- `JsText.IsWhitespace` lists the Unicode category Zs as of Unicode 15. JavaScript strings are UTF-16 and Dafny's `char` is a code point. Every white-space character lies in the Basic Multilingual Plane, so `trim` and `\S` agree on both encodings.
