# Photo-booth booking inquiry, modelled in Dafny

The site is a single-page marketing site for a photo-booth rental business. It has
two pieces of logic under its presentation, and this project models both.

- **The booking modal** (`frontend/src/App.js`) is modelled in `booking_modal.dfy`,
  module `BookingModal`. Its state is a visibility flag, a seven-field draft
  (`name`, `email`, `phone`, `event_type`, `event_date`, `booth_type`, `message`)
  and the log of toast notifications. The transitions are:
  - *open*: any of the seven "Book" buttons.
  - *close*: × or Cancel.
  - *edit*: the `onChange` of one form widget.
  - *submit*: posts the draft. It succeeds or fails, and the network outcome is a
    parameter (`Success | Failure`).

  `Dispatch` and `Run` replay user events. A change or submission while the modal
  is hidden does nothing, because the form exists only while the modal is shown.
  A submission with an empty required input does nothing, because the browser
  stops it.
- **The inquiry API** (`backend/server.py`) is modelled in `booking_api.dfy`,
  module `BookingApi`:
  - Request bodies are validated into the `…Create` input records.
  - `create_booking`, `create_contact` and `subscribe_newsletter` are handled over
    a `Store` with one sequence per collection, in insertion order, plus a
    fresh-id supply.
  - The two listing endpoints return up to 1000 records.
- **The end-to-end path** is modelled in `submission_flow.dfy`, module
  `SubmissionFlow`. The modal posts its draft as a seven-key JSON object, and the
  booking endpoint validates it and stores it. The `EmailStr` field type is a
  parameter, `checkEmail`: it refuses an address (None) or yields the normalised
  address the record holds. A successfully submitted draft can be read back from
  the stored booking, unchanged apart from the address in its checked form. The
  server re-checks the address when it builds the stored and response records.
  The model checks it once, which agrees with the server whenever the check
  accepts its own output unchanged (`BookingApi.RecheckStable`).

## Dismissing keeps the draft

The × button (`frontend/src/App.js:441`) and Cancel (`frontend/src/App.js:553`)
only hide the modal. Only a successful submission (`frontend/src/App.js:31-40`)
resets the draft to its defaults. `ReopenAfterDismissKeepsDraft` proves that
dismissing and reopening shows the draft exactly as it was left.
`ReopenAfterSuccessShowsDefaults` proves that the defaults come back after a
success.

## Model

| member | source | states |
|---|---|---|
| `BookingModal.Initial` | frontend/src/App.js:15-24 | The page starts with the modal hidden, no toasts, every text field `""` and booth type "Classic Print Booth". |
| `BookingModal.DefaultDraft` | frontend/src/App.js:32-40 | The reset draft has every field but the booth type empty and the booth type "Classic Print Booth". |
| `BookingModal.SetField` | frontend/src/App.js:456 | Setting field f to v gives a draft whose f is v and whose other six fields are unchanged. |
| `BookingModal.Edit` | frontend/src/App.js:450-540 | A widget change sets its own field to the typed value. The other six fields, the visibility and the toasts stay unchanged. |
| `BookingModal.Open` | frontend/src/App.js:70 | A "Book" button shows the modal whatever its prior state. The draft and the toasts are untouched. |
| `BookingModal.OpenIsIdempotent` | frontend/src/App.js:106-107 | All seven triggers have the same effect, and pressing a second one while open changes nothing. |
| `BookingModal.Close` | frontend/src/App.js:440-446 | × hides the modal and leaves the draft and toasts exactly as they were. |
| `BookingModal.ReopenAfterDismissKeepsDraft` | frontend/src/App.js:550-557 | Cancel (or ×) followed by any opening shows the same draft as before the dismissal: nothing is reset. |
| `BookingModal.Submit` | frontend/src/App.js:26-45 | Callable only with name, email, phone, event type and date non-empty. It posts the draft unmodified. On success: hidden, default draft, exactly one success toast appended. On failure: visibility and draft unchanged, exactly one error toast appended. |
| `BookingModal.ReopenAfterSuccessShowsDefaults` | frontend/src/App.js:31-40 | After a successful submission the next opening shows the default draft. |
| `BookingModal.SubmitOutcomeDecidesVisibility` | frontend/src/App.js:29-43 | With the modal open and the form filled, a submission hides the modal if and only if it succeeds, and its toast is a success toast if and only if it succeeds. |
| `BookingModal.Dispatch` | frontend/src/App.js:434-560 | One user event only appends toasts, at most one, and only for a submission. An event the widgets can produce keeps the booth type among the select's options. |
| `BookingModal.LastChangeWins` | frontend/src/App.js:452-539 | After any sequence of widget changes in the open modal, each field holds its most recent value, or its start value if it was never changed. Visibility and toasts are unchanged. |
| `BookingModal.BoothTypeStaysOffered` | frontend/src/App.js:516-527 | If the booth type is only ever set from the select, it stays one of "Classic Print Booth", "Portrait Print Booth", "360 Video Booth" across any events. |
| `BookingModal.ReachableBoothTypeOffered` | frontend/src/App.js:22 | Every state reached from the initial page by widget events has an offered booth type. |
| `BookingModal.ToastsPerSubmission` | frontend/src/App.js:28-44 | Over any events, toasts are only appended, at most one per submission attempt. |
| `BookingModal.FilledIn` | frontend/src/App.js:449-540 | From any state, opening the modal and typing each field of any draft, in form order, leaves the modal open holding exactly that draft, with no toast added. |
| `BookingModal.FillAndSubmit` | frontend/src/App.js:26-45 | Filling in any complete inquiry and submitting it. On success: hidden, defaults back, one success toast. On failure: still open, the inquiry intact, one error toast. |
| `BookingModal.WeddingInquiryAccepted` | frontend/src/App.js:30-40 | Open, fill in a wedding inquiry, submit with success: modal hidden, draft back to defaults, one success toast. |
| `BookingModal.WeddingInquiryRefused` | frontend/src/App.js:41-44 | The same inquiry submitted with failure: modal open, draft exactly as filled in, one error toast. |
| `BookingApi.ParseBookingInput` | backend/server.py:45-54 | A booking body is accepted if and only if the six required keys hold strings, the email check accepts the address, and the optional ones hold strings or null. Each field but the address is carried unchanged; the address is the checked form. `package_type`, `location` and `message` are None when absent or null. |
| `BookingApi.ParseContactInput` | backend/server.py:66-70 | A contact body is accepted if and only if `name`, `email` and `message` hold strings, the email check accepts the address, and `phone` is a string, null or absent. `phone` is None when absent, and the address is the checked form. |
| `BookingApi.ParseSubscriptionInput` | backend/server.py:79-80 | A newsletter body is accepted if and only if `email` holds a string that the email check accepts. The input holds the checked form of the address. |
| `BookingApi.CreateBooking` | backend/server.py:88-97 | Appends exactly one booking and answers with that same record. The record carries every input field unchanged, under an id no stored booking has. The other collections are unchanged and the store invariant is kept. |
| `BookingApi.CreateContact` | backend/server.py:109-118 | Appends exactly one contact message carrying the input unchanged, under a fresh id, and answers with it. The other collections are unchanged. |
| `BookingApi.FindByEmail` | backend/server.py:133 | The lookup finds a subscription if and only if some stored subscription has that email, and what it finds is stored and has that email. |
| `BookingApi.SubscribeNewsletter` | backend/server.py:130-144 | Refused with 400 "Email already subscribed" and the store unchanged if and only if the email is already stored. Otherwise exactly one subscription with that email is appended. Email uniqueness and the id invariant are kept. |
| `BookingApi.ToList` | backend/server.py:101 | Draining a cursor yields at most the limit, as a prefix of the documents, and all of them when fewer than the limit exist. |
| `BookingApi.ListBookings` | backend/server.py:99-107 | Returns exactly min(n, 1000) of the n stored bookings, as a prefix of the collection: all of them when there are at most 1000, otherwise the first 1000. |
| `BookingApi.ListContacts` | backend/server.py:120-128 | Returns exactly min(n, 1000) of the n stored contact messages, as a prefix of the collection: all of them when there are at most 1000, otherwise the first 1000. |
| `BookingApi.ServeAllKeepsInvariants` | backend/server.py:130-143 | Under any sequence of requests handled one at a time, ids stay fresh and the newsletter never holds two subscriptions with the same email. |
| `BookingApi.NewsletterEmailsUnique` | backend/server.py:133-135 | Starting from an empty database, no request sequence stores one email twice. |
| `BookingApi.ServeEmails` | backend/server.py:137-143 | One request adds its own email, if it is a newsletter request, to the set of subscribed emails and nothing else. |
| `BookingApi.ServeAllEmails` | backend/server.py:131-144 | After any request sequence, the subscribed emails are exactly those stored before plus every email requested. |
| `BookingApi.ServeAllBookingCount` | backend/server.py:89-96 | Each booking request stores exactly one booking and none is ever removed: the old bookings are a prefix of the new, and the count grows by the number of booking requests. |
| `SubmissionFlow.RequestBody` | frontend/src/App.js:29 | The posted JSON object has exactly the seven draft keys, each holding its draft field as a string. |
| `SubmissionFlow.PostedDraftValidates` | backend/server.py:45-54 | A posted draft whose address the email check accepts passes booking validation. `package_type` and `location` come out as None, `message` is kept as text even when empty, and the address is the checked form. |
| `SubmissionFlow.PostedDraftRefused` | backend/server.py:47 | A posted draft whose address the email check refuses fails booking validation. |
| `SubmissionFlow.SubmittedDraftStored` | backend/server.py:90-96 | After a successful submission of a draft whose address the email check accepts, the booking endpoint stores exactly one booking. That booking gives back the submitted draft with the address in its checked form, and gives back the draft unchanged when the check leaves the address as it is. When the check is stable on its own output, re-checking the stored address (as building `BookingInquiry` does) accepts it unchanged. |

## Left out

- Rendering: layout, styles, images, testimonials and booth copy are static presentation.
- `scrollToSection` (`frontend/src/App.js:47-52`): a pure DOM side effect with no state.
- The axios transport and the sonner toast rendering are foreign libraries. The network is the `Outcome` parameter and toasts are an appended log. `console.error` logging is not modelled.
- Interleaving inside the awaited submission is left out: edits, or a second submission, while the request is pending. Submission is one atomic step.
- Email and date syntax are left out. The browser's `type="email"` / `type="date"` checks belong to the browser, and any string passes them in this model. pydantic's `EmailStr` delegates to the email-validator package, which is not modelled. Every endpoint takes it as the `checkEmail` parameter, so which addresses it accepts and how it normalises them are not modelled. What is modelled is that the records hold the checked address, and that the newsletter lookup compares checked addresses.
- `BookingApi.CreateBooking`: `BookingInquiry(**booking_dict)` (`backend/server.py:91`) and the response model (`backend/server.py:88`) run the `EmailStr` check again on the already checked address. The record holds the address checked once, which is what the server stores only when the check accepts its own output unchanged (`RecheckStable`). A check that changes or refuses its own output is not modelled.
- `BookingApi.CreateContact`: `ContactMessage(**…)` (`backend/server.py:112`) and the response model (`backend/server.py:109`) re-run the check, treated the same way.
- `BookingApi.SubscribeNewsletter`: `NewsletterSubscription(**…)` (`backend/server.py:138`) and the response model (`backend/server.py:130`) re-run the check, treated the same way.
- `BookingModal.Submit`: requires only the five text inputs marked `required` to be non-empty. The booth-type select is `required` too, but it always holds one of its options (see `BoothTypeStaysOffered`).
- uuid generation is replaced by a counter in the store. The counter gives an abstract fresh-id supply with ids that are unique by construction, where the uuid is only unique with overwhelming probability.
- Timestamps and their ISO-string round trip are omitted from every record.
- MongoDB/motor is left out: collections are sequences.
- `BookingApi.ListBookings`: returns the first 1000 in insertion order. The database's natural order is not guaranteed to be insertion order.
- `BookingApi.ListContacts`: returns the first 1000 in insertion order, for the same reason.
- The check-then-insert race in `subscribe_newsletter` is concurrency. Email uniqueness is proved only for requests handled one at a time.
- The framework's 422 answer to an invalid body is modelled only as a failed parse (`None`). The `GET /api/` greeting, CORS middleware, logging setup, `.env` loading and the shutdown hook are configuration plumbing.
