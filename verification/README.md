# Consent form submission model

A Dafny model of the form-state logic of the privacy-consent form in
`src/components/ConsentForm.jsx`: the draft of name, phone, postal code,
address and detail address; the consent flag; the per-field error map;
the address-lookup overlay; and the submission status. Each React handler
becomes one pure transition on an immutable `State`:

- `Text`: ECMAScript `String.prototype.trim` and the whitespace it strips,
  plus a separator join used as a reference definition.
- `PostcodeAddress`: how a lookup widget's completion payload becomes the
  stored address line. A road-name result (`addressType == "R"`) gets a
  `" (neighbourhood, building)"` suffix built from the non-empty names.
- `Form`: the draft and component state, field editing with error clearing,
  applying a lookup result, the consent toggle, and validation.
- `Submission`: the store as a parameter (`Unavailable` or
  `Available(Inserted | InsertFailed)`), the row sent to the `consents`
  table, and the submit handler. The submit handler makes either no store
  attempt or exactly one.
- `Session`: the handlers dispatched from user actions. The success screen
  is terminal. Two invariants are proved over any sequence of actions: no
  submission is ever left in flight, and no stale error is ever displayed.

The error map's messages are opaque: an error is modelled as the presence
of its key (`name`, `phone`, `address`, `agreed`) in a set. Writing
`{ ...errors, key: null }` removes that key.

Two consequences of the code are worth stating:
- Validation rejects a whitespace-only name, phone or address, because
  `validate` tests `trim()` (ConsentForm.jsx:52-54).
- Submit has no precondition. A submit while `isSubmitting` holds does
  nothing, because the submit button is disabled then (ConsentForm.jsx:229;
  `Session.Step`).

## Model

| member | source | states |
|---|---|---|
| Text.SkipForward | src/components/ConsentForm.jsx:52-54 | the start of the trimmed text: everything skipped is whitespace, and it stops on a non-whitespace character or at the end |
| Text.SkipBackward | src/components/ConsentForm.jsx:52-54 | the end of the trimmed text: everything skipped is whitespace, and it stops just after a non-whitespace character or at the start |
| Text.Trim | src/components/ConsentForm.jsx:52-54 | `trim()` is no longer than its input, has no whitespace at either end, and is empty exactly when the input is all whitespace |
| Text.TrimRemovesOnlyWhitespace | src/components/ConsentForm.jsx:52-54 | the input is a blank prefix, then the trimmed text, then a blank suffix: `trim()` removes only whitespace, and only at the ends |
| Text.TrimsToNothing | src/components/ConsentForm.jsx:52-54 | `!s.trim()` holds exactly when the string is blank (whitespace only, or empty) |
| PostcodeAddress.ExtraAddress | src/components/ConsentForm.jsx:29-37 | the extra text is empty exactly when both the neighbourhood and building names are empty, and begins with the neighbourhood name when that is present |
| PostcodeAddress.ComposeAddress | src/components/ConsentForm.jsx:27-39 | the address always starts with the base line; a non-road-name result yields the base line exactly; the address differs from the base line exactly for a road-name result with some name present |
| PostcodeAddress.ExtraAddressIsJoinOfNonEmpty | src/components/ConsentForm.jsx:31-37 | the step-by-step extra text equals the non-empty names among [neighbourhood, building], in order, joined by ", " |
| PostcodeAddress.ComposeAddressMatchesReference | src/components/ConsentForm.jsx:28-39 | for every lookup result, the address is the base line plus, for road-name results only, " (" + join + ")" when the join is non-empty and nothing otherwise |
| PostcodeAddress.RoadNameExamples | src/components/ConsentForm.jsx:31-38 | "테헤란로 1" with both names gives "테헤란로 1 (역삼동, 타워)"; with only the building gives "테헤란로 1 (타워)"; a lot-number result gets no suffix |
| Form.UpdateField | src/components/ConsentForm.jsx:20-25 | editing a field sets only that field of the draft; it removes only that field's error key, and leaves consent, overlay, status and the other errors unchanged |
| Form.ApplyAddress | src/components/ConsentForm.jsx:41-47 | a lookup result sets the postal code and the composed address, clears only the address error and closes the overlay; typed fields, consent and other errors are unchanged |
| Form.LookupSatisfiesAddressCheck | src/components/ConsentForm.jsx:41-54 | after a lookup whose base line is not blank, the address check passes |
| Form.ToggleConsent | src/components/ConsentForm.jsx:200-203 | consent flips and only the consent error is removed; the draft and the other errors are unchanged |
| Form.CollectErrors | src/components/ConsentForm.jsx:51-55 | the new error map, built from the four test results, has an entry for exactly the failing tests |
| Form.FailingChecks | src/components/ConsentForm.jsx:50-55 | name, phone and address fail exactly when blank (whitespace-only fails); consent fails exactly when not given |
| Form.Validate | src/components/ConsentForm.jsx:50-57 | validation succeeds exactly when name, phone and address are not blank and consent is given; the error map is replaced by exactly the failing checks; nothing else changes |
| Submission.RowMappingRoundTrip | src/components/ConsentForm.jsx:79-86 | the row copies each draft field to its column, with `detailAddress` to `detail_address`, plus `agreed`; the draft and consent read back unchanged, so distinct drafts give distinct rows |
| Submission.ToRow | src/components/ConsentForm.jsx:79-86 | the inserted row holds each draft field under its column name, with `detailAddress` under `detail_address`, plus `agreed`; it reads back to exactly the draft and flag |
| Submission.BeginSubmit | src/components/ConsentForm.jsx:64-65 | once an attempt starts, the form is submitting and shows no banner; draft, consent and errors are untouched |
| Submission.OutcomeStatus | src/components/ConsentForm.jsx:68-93 | the attempt ends in success exactly when no store is configured (the mock path) or the insert reports no error; otherwise it ends in error, and it is never left unset |
| Submission.FinishSubmit | src/components/ConsentForm.jsx:89-96 | once the attempt ends, the form records its outcome and is no longer submitting; draft, consent and errors are untouched |
| Submission.AttemptStore | src/components/ConsentForm.jsx:64-96 | makes exactly one attempt: a mock attempt exactly when no store is configured, otherwise one insert into `consents` of exactly the draft's row; the status is success when there is no store or the insert reports no error, and error otherwise; submitting is false at the end; draft, consent and errors are kept |
| Submission.Submit | src/components/ConsentForm.jsx:60-97 | the error map becomes exactly the failing checks and the draft is kept; there is a store attempt exactly when the draft passes validation; a failing draft leaves submitting and status unchanged; a passing draft clears the errors and then makes the single store attempt |
| Submission.InsertedRowsAreValid | src/components/ConsentForm.jsx:60-87 | every row sent to the store has non-blank name, phone and address and `agreed` true |
| Submission.RetryAfterErrorResendsSameRow | src/components/ConsentForm.jsx:76-93 | after a store error, submitting again sends the very same row as a new insert |
| Session.Step | src/components/ConsentForm.jsx:99-115 | on the success screen every action is inert; only edits and lookups change the draft; only a submit changes the status |
| Session.SuccessIsTerminal | src/components/ConsentForm.jsx:99-115 | no sequence of actions leaves the success screen |
| Session.SuccessOnlyBySendableSubmit | src/components/ConsentForm.jsx:60-99 | the success screen is entered only by submitting a draft that passes validation, and the draft is kept |
| Session.SuccessNeedsSubmit | src/components/ConsentForm.jsx:60-99 | any sequence of actions that reaches the success screen contains a submit |
| Session.NeverLeftSubmitting | src/components/ConsentForm.jsx:64-96 | after any sequence of actions from a state with no submission in flight, no submission is in flight |
| Session.ErrorsAreCurrentIsSubsetOfFailing | src/components/ConsentForm.jsx:50-57 | an error is shown only for a field that is blank (or for consent not given) exactly when the shown errors are a subset of what validation would report now |
| Session.EditKeepsErrorsCurrent | src/components/ConsentForm.jsx:20-25 | editing a field never leaves an error displayed for a check that now passes |
| Session.LookupKeepsErrorsCurrent | src/components/ConsentForm.jsx:41-46 | applying a lookup never leaves an error displayed for a check that now passes |
| Session.ConsentKeepsErrorsCurrent | src/components/ConsentForm.jsx:200-203 | toggling consent never leaves an error displayed for a check that now passes |
| Session.StepKeepsErrorsCurrent | src/components/ConsentForm.jsx:50-57 | every action keeps the displayed errors a subset of the currently failing checks |
| Session.RunKeepsErrorsCurrent | src/components/ConsentForm.jsx:50-57 | every sequence of actions keeps the displayed errors a subset of the currently failing checks |
| Session.InitialStateInvariants | src/components/ConsentForm.jsx:7-18 | the freshly loaded form has an empty draft, no consent, the overlay closed, an empty error map, nothing in flight and no banner; it satisfies the error invariant |

## Left out

- Rendering: the JSX markup, styling classes, icons and the modal layout. Of the success screen only the fact that it replaces the form, so that no form action reaches it, is modelled (`Session.Step`).
- The address-lookup widget itself: it is an external component. Only its completion payload is modelled, as `LookupResult`. Opening and closing the overlay are plain flag updates.
- Store client construction from the two environment values, and the remote insert call itself. Both are external. They are reduced to the `Store` parameter: whether a client exists, and what its single insert reports.
- The one-second delay of the unconfigured fallback, and the warning and error log lines. These are timing and console output. The fallback is a single `MockAttempt` step.
- The page reload offered on the success screen. It is browser I/O that discards all state, so the model keeps success terminal.
- React's asynchronous state batching and stale closures. Each handler is one atomic transition. As a result, the in-flight window of a submission is not observable between actions; `Submission.BeginSubmit` describes the state inside it.
- The Korean error message texts. An error is only present or absent.
- The application shell in `src/App.jsx`, which only wraps the form in layout.
- Text.Trim: characters are Unicode scalar values, while JavaScript strings are UTF-16 code units. Every character that `trim` strips lies in the Basic Multilingual Plane, so the result is the same.
- Session.Step: each submit event carries its own `Store`, so the model lets store availability change within one session. In the program the client is fixed once, when the module loads (src/lib/supabaseClient.js:7-9). Every lemma that holds over arbitrary per-submit stores also holds for a fixed store.
