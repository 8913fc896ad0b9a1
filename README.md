# Submission controllers of the halfdigit portfolio site

A Dafny model of the three client-side controllers of the site that do more than render markup:

- **Speech-to-text upload page** (`SpeechToText`). It validates an audio file when the user picks or drops it. A file passes if its MIME type is one of four audio types or its name ends in `.wav`/`.mp3` in any case, and if it is at most 25 MiB. The page also keeps a drag-highlight flag and sends one transcription request at a time.
- **Contact page** (`Contact`). It posts name, email and message, plus the current path, as JSON. A client-side check comes first. An `isSubmitting` flag guards the send button.
- **Titanic prediction page** (`Titanic`). It encodes the form as a seven-key JSON body, with each checkbox sent as a 1/0 flag. It stores the parsed reply as the result.

Each page is a class holding that page's React state. `Valid()` is the invariant the page keeps. Each async `handleSubmit` is split into two methods:

- `BeginSubmit` runs everything up to the `await`.
- `CompleteSubmit(outcome)` runs the rest. The network's answer is the abstract `outcome`: a parsed response (ok or not) or a thrown exception with its message.

React's state setters become plain field assignments, and the state a handler leaves behind is its last assignment to each field. Calls to `alert` are recorded in an `alerts` sequence. Request bodies actually posted are recorded in a `requests` (or `uploads`) sequence, which lets "exactly one request, no retry" be stated. A disabled submit button becomes a precondition of `BeginSubmit`: a handler cannot run while its button is disabled.

Files: `wrappers.dfy` (the `Option` type), `speech_to_text.dfy`, `contact.dfy`, `titanic.dfy`.

Behaviour of the code worth knowing, each stated and proved in the model:

- A rejected file selection keeps the previously accepted file, because `file` is assigned only on acceptance. `RejectedChoiceKeepsEarlierFile` shows that this earlier file is the one uploaded.
- The Titanic page's `male` checkbox is encoded like the other two checkboxes, as a 1/0 flag.
- The Titanic page never checks `response.ok`: any parsed reply becomes the result. A server error's reply is therefore displayed as "Did Not Survive" (`ErrorReplyShownAsDidNotSurvive`).
- On the contact page, a missing field is reported by an alert. The flag `isSubmitting` is raised before the check and lowered again after it.
- On every page the submit button is locked while a request is outstanding and free again once it resolves, whatever the outcome.

## Model

| member | source | states |
|---|---|---|
| SpeechToText.ExtensionTestIsRegex | app/speech-to-text/page.jsx:59-60 | lower-casing the name and testing for a `.wav`/`.mp3` suffix agrees, for every name, with the regular expression's verdict (a case-insensitive match of a dot followed by `wav` or `mp3` that ends at the end of the name) |
| SpeechToText.Validate | app/speech-to-text/page.jsx:53-73 | no selection gives no verdict; a file is accepted iff its type or name passes the format check and its size is at most 25 MiB; a bad format gets the format message whatever the size; a good format that is too large gets the size message |
| SpeechToText.SizeBoundary | app/speech-to-text/page.jsx:68-71 | a well-formatted file of exactly 26,214,400 bytes is accepted and one of 26,214,401 bytes is rejected with the size message |
| SpeechToText.BadFormatOversizedGetsFormatError | app/speech-to-text/page.jsx:62-71 | an oversized file whose type and name both fail gets the format message, not the size message |
| SpeechToText.DragStep | app/speech-to-text/page.jsx:33-37 | dragenter/dragover set the flag, dragleave clears it, any other event type leaves it unchanged |
| SpeechToText.DragFlagFollowsLastDecisive | app/speech-to-text/page.jsx:30-38 | after any run of drag events, the flag is set iff the last enter/over/leave event was an enter or an over |
| SpeechToText.DragFlagUnchangedWithoutDecisive | app/speech-to-text/page.jsx:30-38 | a run of events none of which is enter/over/leave leaves the flag as it was |
| SpeechToText.CompletionError | app/speech-to-text/page.jsx:95-105 | only an ok response gives no error; every failure gives a non-empty message; a non-ok reply surfaces the server's non-empty `error` verbatim, otherwise "Failed to transcribe audio."; an exception surfaces its message, or the generic one when it has none |
| SpeechToText.SpeechToTextPage.constructor | app/speech-to-text/page.jsx:17-21 | no file, empty transcript and error, not loading, not dragging |
| SpeechToText.SpeechToTextPage.SubmitDisabled | app/speech-to-text/page.jsx:207 | the submit button is disabled iff there is no file or a request is outstanding; `BeginSubmit` leaves it disabled after an upload starts and `CompleteSubmit` frees it whenever a file is selected |
| SpeechToText.SpeechToTextPage.ValidateAndSetFile | app/speech-to-text/page.jsx:49-74 | every selection, even none, clears transcript and error; a rejection shows its message; the stored file changes only on acceptance; loading, drag flag and uploads are untouched; only an accepted file is ever stored |
| SpeechToText.SpeechToTextPage.HandleFileChange | app/speech-to-text/page.jsx:24-27 | validates the first chosen file, or no selection when the list is empty (which still clears the messages) |
| SpeechToText.SpeechToTextPage.HandleDrag | app/speech-to-text/page.jsx:30-38 | the drag flag becomes `DragStep` of its old value and the event type; nothing else changes |
| SpeechToText.SpeechToTextPage.HandleDrop | app/speech-to-text/page.jsx:40-47 | the drag flag ends false; an empty drop leaves file and messages alone; otherwise the first dropped file is validated as a selection |
| SpeechToText.SpeechToTextPage.BeginSubmit | app/speech-to-text/page.jsx:77-93 | with no file nothing changes and nothing is sent; otherwise loading becomes true, error and transcript are cleared, the stored file is uploaded exactly once and the submit button is disabled; every uploaded file passed validation |
| SpeechToText.SpeechToTextPage.CompleteSubmit | app/speech-to-text/page.jsx:95-107 | an ok reply stores its transcript; any other outcome sets the error to `CompletionError`; loading is false after every outcome, so the button is disabled again only if there is no file; file, drag flag and uploads are unchanged |
| SpeechToText.SubmitLocksUntilResolved | app/speech-to-text/page.jsx:77-107 | after an accepted file is chosen, the button is available; it is disabled while the upload is outstanding and available again after any outcome |
| SpeechToText.RejectedChoiceKeepsEarlierFile | app/speech-to-text/page.jsx:62-86 | after an accepted file and then a badly formatted one, the format error is shown and the submit uploads the earlier, accepted file |
| Contact.BuildPayload | app/contact/page.jsx:15-20 | the body has exactly the keys name, email, message and source_page; the three form values pass through unchanged and source_page is the pathname |
| Contact.PayloadRoundTrip | app/contact/page.jsx:15-20 | the form can be read back from its body unchanged |
| Contact.RequiredFieldsIff | app/contact/page.jsx:22-26 | a body built from a form passes the client-side check iff name, email and message are all non-empty |
| Contact.OutcomeAlert | app/contact/page.jsx:38-47 | an ok response, a non-ok response and an exception each map to their own message, and each message belongs to exactly one outcome |
| Contact.ContactPage.constructor | app/contact/page.jsx:6 | not submitting, empty form, no alerts, no requests |
| Contact.ContactPage.SendDisabled | app/contact/page.jsx:98 | the send button is disabled iff a submission is in progress; after `BeginSubmit` it is disabled iff a request was sent, and after `CompleteSubmit` it is enabled |
| Contact.ContactPage.Edit | app/contact/page.jsx:64-92 | typing into one input changes that field only |
| Contact.ContactPage.BeginSubmit | app/contact/page.jsx:8-37 | runs only while the send button is enabled; a request is sent iff no field is empty, and the button stays disabled iff one was sent; with a missing field, "All fields are required" is alerted, no request is made and the flag ends false; otherwise exactly one body, `BuildPayload` of the form and pathname, is posted and the flag is true; the form is untouched; no posted body ever lacks a field |
| Contact.ContactPage.CompleteSubmit | app/contact/page.jsx:38-49 | alerts `OutcomeAlert` of the outcome; resets the form only on an ok response; the flag is false and the send button enabled after every outcome; no further request is made |
| Contact.ResendAfterFailure | app/contact/page.jsx:38-49 | the send button is locked while a send is outstanding and free after a non-ok reply; the fields are intact, so a second send posts the same body; an ok reply then leaves an empty form |
| Titanic.Flag | app/titanic/page.jsx:21-23 | a checkbox is sent as 1 iff it is checked, and as 0 iff it is not |
| Titanic.EncodePayload | app/titanic/page.jsx:16-24 | the body has exactly the seven keys pclass, age, sibsp, parch, adult_male, alone, male; the four numbers pass through; each flag is 1 iff its checkbox is checked and is always 0 or 1 |
| Titanic.DecodeEncode | app/titanic/page.jsx:16-24 | every encoded body has the page's shape and decodes back to the form it came from |
| Titanic.EncodeDecode | app/titanic/page.jsx:16-24 | every seven-key body with 0/1 flags is the encoding of the form decoded from it |
| Titanic.FlagsIndependent | app/titanic/page.jsx:21-23 | two forms that agree on one checkbox send the same value for its flag, whatever their other fields |
| Titanic.Label | app/titanic/page.jsx:155-161 | the headline is "Survived" iff the reply's `survived` is true, and "Did Not Survive" otherwise |
| Titanic.ErrorReplyShownAsDidNotSurvive | app/titanic/page.jsx:36-37 | a stored reply that carries only an `error` field is displayed as "Did Not Survive" |
| Titanic.TitanicPage.constructor | app/titanic/page.jsx:6-7 | not loading, no result, no alerts, no requests |
| Titanic.TitanicPage.RunDisabled | app/titanic/page.jsx:137 | the run button is disabled iff a request is outstanding: `BeginSubmit` requires it enabled and leaves it disabled, `CompleteSubmit` enables it after every outcome |
| Titanic.TitanicPage.Displayed | app/titanic/page.jsx:152-161 | a headline is shown iff there is a result, and it reads "Survived" iff the result's `survived` is true; nothing is shown while a prediction is outstanding, and after it resolves the headline is the parsed reply's `Label` (none after an exception) |
| Titanic.TitanicPage.BeginSubmit | app/titanic/page.jsx:9-34 | runs only while the run button is enabled; loading becomes true, the button is disabled and nothing is displayed, the previous result is cleared and the encoded form is posted exactly once; no result is ever shown while loading and every posted body has the seven-key shape |
| Titanic.RunLocksUntilResolved | app/titanic/page.jsx:9-42 | while a prediction is outstanding the run button is locked and no headline is shown; afterwards the button is free and the headline is the parsed reply's `Label`, or none after an exception |
| Titanic.TitanicPage.CompleteSubmit | app/titanic/page.jsx:36-42 | a parsed reply becomes the result unchanged, whatever its HTTP status; an exception alerts "Something went wrong. Please try again." and leaves no result; loading is false after every outcome; no further request is made |

## Left out

- Network I/O (`fetch`, `FormData`, `response.json()`): it is replaced by the outcome parameter of each `CompleteSubmit`. A reply that is not JSON is an exception outcome, as in the code.
- Interleaving of async handlers: each handler is one `BeginSubmit` step and one `CompleteSubmit` step. Other handlers (file selection, drag events, typing) may run in between. A second submit while one is outstanding is excluded by the `BeginSubmit` precondition, which stands for the disabled button.
- `alert`, `console.log` and `console.error`: alerts are recorded as messages in `alerts`; console output is not modelled.
- JavaScript `Number()` coercion and floating point: the Titanic numeric fields are taken as the numbers `Number()` yields, modelled as exact reals. NaN is not modelled.
- The confidence display `(probability*100).toFixed(1)` and the file-size display `(file.size/1024/1024).toFixed(2)`: display-only float formatting.
- JavaScript truthiness beyond strings and booleans: the server's `error` is modelled as an optional string, and `survived` as an optional boolean. A truthy non-string `error` or a non-boolean `survived` is not modelled. A JSON `null` reply on the Titanic page is not modelled either (it would display nothing).
- SpeechToText.CompleteSubmit: an ok reply without a `transcript` field stores `undefined` in the code. The model's reply always carries a transcript string.
- Case folding of the `i` regular-expression flag is modelled for ASCII letters only. The pattern's letters are ASCII, and non-ASCII characters never fold onto them.
- The file input's `accept=".wav,.mp3"` attribute: it is a picker hint, and every selection still goes through `validateAndSetFile`.
- Browser constraint validation, which decides whether the submit event fires at all: `type="email"` on the contact email input (app/contact/page.jsx:77), and `required`, `min`/`max` and the number inputs' step on the Titanic form (app/titanic/page.jsx:69-72, 84-87, 100, 113). The model starts at the handler, so it accepts inputs the browser would stop first.
- Contact.ContactPage.BeginSubmit: "a request is sent iff no field is empty" holds for the handler; at page level an email the browser's `type="email"` check refuses never reaches it.
- Titanic.TitanicPage.BeginSubmit: posts any form values; at page level the browser's `required`, `min={1}`/`max={3}` and step checks keep an empty field, a class outside 1..3 or a fractional class, sibling or parent count from being submitted.
- `preventDefault`/`stopPropagation`, JSX rendering, styling and the transcript's copy-to-clipboard button: view plumbing with no state effect.
- The home page, layout, footer and navigation bar, and the home page's visit logger: static markup, and a fire-and-forget telemetry request whose errors are swallowed.
