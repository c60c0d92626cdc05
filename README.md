# Encrypted grade transcripts: a Dafny model of the page logic

The repository is a single React page, `frontend/web/src/App.tsx`. On it a
student keeps course grades on a ledger contract. Each grade is stored
encrypted under fully homomorphic encryption (FHE). A grade can later be
revealed through a decryption gateway, which also records an on-chain proof
that the grade is verified. Under the wallet, SDK and rendering code sits a
small amount of deterministic logic, and this project models it:

- **Summary figures** (`calculateGPAStats`): the verified count, the credit
  total, the credit-weighted GPA, the mean of `publicValue1`, and the 90/10
  prediction. Module `GpaStats`, file `gpa_stats.dfy`.
- **The reload** (`loadData`): the loop that turns ledger entries into the
  displayed records. It applies the JavaScript `x || d` fallbacks and skips a
  record whose read throws. Module `Transcripts`, file `transcripts.dfy`.
  `BuildTranscripts` is that loop, proved against the recursive
  specification `Built`.
- **The visible list** (`filteredTranscripts`): a case-insensitive substring
  search plus a semester selector. Module `Filtering`.
- **The add-course form**: `handleChange` strips the numeric inputs to
  digits, and the submit button's `disabled` test is modelled, along with
  the values and error message `addTranscript` derives from the form. Module
  `AddForm`.
- **The two ledger flows**, `addTranscript` and `decryptGrade`. This covers
  which external calls they make, in what order, and how every way those
  calls settle is classified. Module `Lifecycle`. Each awaited call is an
  input of type `Attempt<T>`, either `Done(value)` or `Threw(message)`.
- **The detail modal**: its status line, its grade box, its button caption
  and `handleDecrypt`'s toggle. Module `DetailView`.
- **The page state**: class `AppState.App` holds the component's `useState`
  hooks as fields.
  - Its methods step through them as the handlers do.
  - A ghost field `calls` logs, one entry each, the awaited calls of
    `addTranscript` and `decryptGrade` (contract handles, record reads,
    encryption, creation, confirmation, gateway). A whole `loadData` is
    logged as a single `Reload` entry; its own reads are not itemised.
  - `gpaStats` is the `GpaStatsNow()` function of the list, because the
    effect on `transcripts` recomputes it after every change.

Support modules are `Common` (`Option`, `Attempt`, `JsNumber`, the status
banner), `Seqs` (an order-preserving filter and its laws) and `Text`:

- digits;
- `${n}`, proved to spell `n` (the number its digits denote is `n`);
- `parseInt`;
- `x || d`;
- ASCII `toLowerCase`;
- `includes`, proved equivalent to "occurs at some index".

Choices that follow the code rather than the intent one might read into it:

- The grade is never range-checked. The 0–100 bound exists only as HTML
  `min`/`max` attributes (App.tsx:615-616). `parseInt(grade) || 0` is the
  only processing the grade gets. `AddForm.GradeNotRangeChecked` shows that
  "150" is submitted as 150.
- `averageGrade` averages `publicValue1` over every record, verified or not.
  `addTranscript` fills `publicValue1` with the credit hours.
- `addTranscript` always submits 1 as `publicValue2`, so every reloaded
  record is labelled "Semester 1". The semester selector offers "Fall 2024",
  "Spring 2024" and "Fall 2023", so any of those choices hides every
  reloaded record (`Filtering.PresetSemesterHidesReloaded`).
- In two cases the success banner is set before `loadData` is awaited: after
  an added course, and after a decryption refused as "Data already
  verified". If the id listing then throws, the banner ends as "Failed to
  load data". After a fresh decryption the banner is set after the reload
  and always stands.
- The detail modal shows the snapshot of the course taken when it was
  opened. `AppState.App.HandleDecrypt` never changes `selected`, even when
  the reveal reloads the list, so after a fresh reveal of an unverified
  course the modal goes on labelling it "Locally Decrypted"
  (`DetailView.PressToggles`).

## Model

| member | source | states |
|---|---|---|
| GpaStats.CalculateGpaStats | frontend/web/src/App.tsx:119-135 | the verified count never exceeds the list length; an empty list gives GPA, credits, count, average and prediction all 0, with no division |
| GpaStats.NoVerifiedStats | frontend/web/src/App.tsx:120-123 | with no verified record the GPA, the credit total and the verified count are 0, whatever the unverified records hold |
| GpaStats.VerifiedTotals | frontend/web/src/App.tsx:120-121 | the verified count equals a direct count of verified records and the credit total the direct sum of their credit hours |
| GpaStats.GradePointsBounds | frontend/web/src/App.tsx:122 | with positive credits and grades in [lo, hi], the grade points lie between lo and hi times the credit sum, which is positive for a non-empty list |
| GpaStats.GpaWithinBounds | frontend/web/src/App.tsx:120-123 | with positive credits and every verified grade (a missing one counting 0) in [lo, hi], the GPA lies in [lo, hi] once one record is verified |
| GpaStats.PublicSumBounds | frontend/web/src/App.tsx:125-126 | the sum of `publicValue1` lies between lo and hi times the list length |
| GpaStats.AverageWithinBounds | frontend/web/src/App.tsx:125-126 | the average grade of a non-empty list lies within any bounds all `publicValue1` share |
| GpaStats.PredictedBetween | frontend/web/src/App.tsx:133 | the prediction is GPA·0.9 + average·0.1 and lies between the GPA and the average |
| GpaStats.WorkedExample | frontend/web/src/App.tsx:119-135 | credits 3 and 2 with verified grades 90 and 80 give GPA 86, 5 credits, 2 verified, average 2.5, prediction 77.65 |
| Transcripts.Normalise | frontend/web/src/App.tsx:151-163 | a built record's id and encrypted-grade field are the ledger id; credit hours are `publicValue1`, or 1 when that is 0; the semester is "Semester n" with n defaulting to 1; the decrypted value is the ledger's (0 when none); the public values are copied |
| Transcripts.Built | frontend/web/src/App.tsx:146-167 | the rebuilt list is no longer than the id list and each of its records is the normalisation of a record the ledger holds under its id |
| Transcripts.BuildTranscripts | frontend/web/src/App.tsx:146-169 | the loop pushing one record per successful read produces exactly `Built` of the id list |
| Transcripts.BuiltAppend | frontend/web/src/App.tsx:148-167 | building distributes over concatenation of the id list |
| Transcripts.BuiltFollowsIds | frontend/web/src/App.tsx:148-167 | the ids of the rebuilt list are the ledger ids, in order, filtered to those whose read succeeds |
| Transcripts.BuiltSkipsFailedRead | frontend/web/src/App.tsx:149-166 | a read that throws removes its own id and nothing else from the result |
| Transcripts.Reloaded | frontend/web/src/App.tsx:137-176 | a connected reload whose id listing succeeds yields a list whose ids are the listed ids, in order, filtered to the readable ones; in every other case the list is kept |
| Transcripts.ReloadFails | frontend/web/src/App.tsx:170-172 | "Failed to load data" is reported only for a connected, readable ledger whose listing throws, and then the list is kept; a connected reload with a readable ledger that does not fail rebuilds the list from the listed ids |
| Text.ContainsIff | frontend/web/src/App.tsx:312 | `includes` holds exactly when the needle occurs at some index of the haystack |
| Text.ParseInt | frontend/web/src/App.tsx:192 | `parseInt` gives NaN exactly when the input is empty or does not start with a digit; otherwise the value of its leading digits, which on a string of digits is the whole string |
| Text.OrDefault | frontend/web/src/App.tsx:155-162 | `x \|\| d` on a number gives `d` for NaN and 0 and the number itself otherwise |
| Filtering.FilteredTranscripts | frontend/web/src/App.tsx:311-315 | the visible list is an order-preserving subsequence of the list; every kept item matches both the search and the semester test, and every matching item is kept, as many times as it occurs in the list, while a non-matching item occurs zero times |
| Filtering.KeptNameContainsTerm | frontend/web/src/App.tsx:312 | a kept item's lower-cased name contains the lower-cased search term at some index |
| Filtering.EmptySearchShowsAll | frontend/web/src/App.tsx:311-315 | an empty search with "all" semesters shows the whole list unchanged |
| Filtering.PresetSemesterHidesReloaded | frontend/web/src/App.tsx:483-486 | a semester choice that is not "all" and does not start with "Semester " hides every reloaded record |
| AddForm.StripNonDigits | frontend/web/src/App.tsx:578 | the stripped value holds digits only, is an order-preserving subsequence of the input, and keeps every digit of it |
| AddForm.StripKeepsDigitCounts | frontend/web/src/App.tsx:578 | each digit occurs in the stripped value as often as in the input; any other character does not occur |
| AddForm.StripIdempotent | frontend/web/src/App.tsx:578 | stripping twice equals stripping once |
| AddForm.StripDigitsUnchanged | frontend/web/src/App.tsx:578 | a string of digits is left as it is |
| AddForm.HandleChange | frontend/web/src/App.tsx:575-583 | the changed input's key holds the stripped value for "grade" and "creditHours" and the raw value otherwise; every other key is unchanged and no other key appears |
| AddForm.InitialFormSanitised | frontend/web/src/App.tsx:44-49 | the initial form's numeric inputs hold digits only |
| AddForm.HandleChangeKeepsSanitised | frontend/web/src/App.tsx:575-583 | every change keeps the numeric inputs digit-only |
| AddForm.SubmitDisabled | frontend/web/src/App.tsx:651 | the submit button is enabled exactly when nothing is being added or encrypted and both the course name and the grade are non-empty |
| AddForm.GradeValue | frontend/web/src/App.tsx:192 | on a digit-only grade input (empty included) the grade is the number its digits spell; an input not starting with a digit gives 0 |
| AddForm.CreditValue | frontend/web/src/App.tsx:202 | the submitted credit hours are at least 1; on a digit-only input they are the number its digits spell, or 1 when that is 0 or the input is empty |
| AddForm.EnabledSubmitGrade | frontend/web/src/App.tsx:192 | once the button is enabled on a digit-only form, the grade encrypted is the number its digits spell |
| AddForm.GradeNotRangeChecked | frontend/web/src/App.tsx:192 | a grade typed as "150" enables the button and is encrypted as 150 |
| AddForm.SubmissionErrorMessage | frontend/web/src/App.tsx:224-226 | the message is "Transaction rejected" exactly when the error text contains "user rejected transaction"; otherwise it is "Submission failed: " followed by the error text, or by "Unknown error" when there is none |
| Lifecycle.SubmissionFor | frontend/web/src/App.tsx:192-205 | the submitted record carries `parseInt(grade) \|\| 0`, credits of at least 1, the course name, and 1 as its second public value |
| Lifecycle.AddOutcomeOf | frontend/web/src/App.tsx:179-227 | disconnected exactly when the wallet is not connected; a success exactly when a signer was obtained and no awaited step threw; otherwise a failure carrying the message of the first step that threw, or "Failed to get contract with signer" when the signer is missing |
| Lifecycle.AddSteps | frontend/web/src/App.tsx:188-208 | the calls made are a prefix of signer, encrypt, create, confirm, stopping at the first step that fails: 1 call without a signer, 2 when encryption throws, 3 when creation throws, all 4 otherwise |
| Lifecycle.AddCalls | frontend/web/src/App.tsx:178-232 | no call when disconnected; otherwise the steps, followed by one reload exactly when the flow succeeds |
| Lifecycle.RevealOf | frontend/web/src/App.tsx:236-289 | the outcomes partition the inputs: disconnected; no read-only contract; the stored value (the ledger's own) exactly for a record read as verified; no signer; a fresh reveal exactly when handle read and gateway both succeed; the catch block's classification exactly when an awaited step threw |
| Lifecycle.RevealSteps | frontend/web/src/App.tsx:243-264 | the calls made before the outcome is known are a prefix of read-contract, read-record, signer, read-handle, gateway; none exactly when disconnected; 2 on the fast path and all 5 on a fresh reveal |
| Lifecycle.RevealCalls | frontend/web/src/App.tsx:234-293 | the steps, then exactly one reload after a fresh reveal or the already-verified race and none otherwise |
| Lifecycle.AddCallOrder | frontend/web/src/App.tsx:188-216 | a record is created only right after its grade was encrypted; the page reloads exactly when the flow succeeds, never after a failure |
| Lifecycle.SubmittedCourseReloads | frontend/web/src/App.tsx:197-205 | assuming the ledger stores a new record with the submitted name, the credit hours as `publicValue1`, the second public value as `publicValue2`, unverified and with no decrypted value (the contract is not part of this model), the reload shows the submitted credit hours in both `creditHours` and `publicValue1` and labels the course "Semester 1" |
| Lifecycle.ThrownOutcome | frontend/web/src/App.tsx:279-289 | a thrown error is the already-verified race exactly when its message contains "Data already verified", and a failure otherwise |
| Lifecycle.RevealResult | frontend/web/src/App.tsx:247-289 | the flow resolves to a number exactly for a stored value or a fresh reveal, and to null otherwise |
| Lifecycle.VerifiedFastPath | frontend/web/src/App.tsx:246-252 | a record the ledger reports verified yields its stored value, and no signer or gateway call is made |
| Lifecycle.DecryptOnlyWhenUnverified | frontend/web/src/App.tsx:243-264 | the gateway is called at most once, as the fifth call: for the handle just read, for a record read as unverified, after a signer was obtained |
| Lifecycle.ThrownErrorsAreClassified | frontend/web/src/App.tsx:279-289 | the already-verified race resolves to null and ends with a reload; any other failure resolves to null with no reload |
| Lifecycle.ThrowsDecideOutcome | frontend/web/src/App.tsx:246-289 | whichever awaited step throws, the outcome is decided by its message alone |
| Lifecycle.RevealedValueIsKeyed | frontend/web/src/App.tsx:268-277 | a fresh reveal yields the clear value stored under the very handle read for the record, or NaN when the gateway's result lacks it |
| Lifecycle.RevealBanner | frontend/web/src/App.tsx:236-289 | disconnected shows "Please connect wallet first"; a missing contract leaves the banner as it was; the stored value shows "Grade already verified"; a fresh reveal shows "Grade decrypted successfully!"; any other failure shows "Decryption failed"; the race shows "Grade already verified" unless the reload's listing throws, which leaves "Failed to load data" |
| Lifecycle.AddBanner | frontend/web/src/App.tsx:179-227 | disconnected shows "Please connect wallet first"; a failed step leaves the classified error message; a success leaves "Transcript added successfully!", or "Failed to load data" when the reload's listing throws |
| DetailView.StatusOf | frontend/web/src/App.tsx:719-720 | the status is "On-chain Verified" exactly for a verified course, "Locally Decrypted" exactly when unverified with a local value, and "FHE Encrypted" otherwise |
| DetailView.GradeShown | frontend/web/src/App.tsx:711-716 | the grade box shows the ledger's value exactly in the verified status, the local value exactly in the local status, and a padlock otherwise |
| DetailView.ButtonCaption | frontend/web/src/App.tsx:729-731 | "Decrypting..." exactly while an operation is in flight; otherwise the caption follows the status line one for one |
| DetailView.AfterPress | frontend/web/src/App.tsx:670-680 | a press clears a held local value; otherwise the local value becomes the reveal's result, which may be null |
| DetailView.PressToggles | frontend/web/src/App.tsx:670-680 | on an unverified course a successful reveal shows "Locally Decrypted" with that value, and the next press, which requests nothing, returns the course to "FHE Encrypted" |
| DetailView.VerifiedOverridesLocal | frontend/web/src/App.tsx:711-720 | a verified course shows "On-chain Verified" and the ledger's value whatever is held locally |
| AppState.App.constructor | frontend/web/src/App.tsx:34-64 | the initial state: empty list, zero statistics, hidden banner, the initial form, nothing selected or in flight |
| AppState.App.GpaStatsNow | frontend/web/src/App.tsx:115-117 | the statistics are those of the current list; the verified count never exceeds its length |
| AppState.App.LoadData | frontend/web/src/App.tsx:137-176 | the list is rebuilt when the id listing succeeds and kept otherwise; "Failed to load data" is shown exactly when the listing throws; the refreshing flag ends false when connected; one reload is logged |
| AppState.App.HandleFormChange | frontend/web/src/App.tsx:575-583 | the form becomes `HandleChange` of the old one, and its numeric inputs stay digit-only |
| AppState.App.SubmitSteps | frontend/web/src/App.tsx:188-209 | the try block's outcome is the classification of how its awaited calls settle; its calls are logged in order up to the first that throws; the confirmation banner goes up exactly once the creation was sent; on the sanitised form, once a signer is obtained, the grade encrypted is the number the grade input's digits spell |
| AppState.App.AddTranscript | frontend/web/src/App.tsx:178-232 | the whole call log, banner, list, form, modal and busy flags after the flow, for each outcome: disconnected, a failed step, or a success with a reload |
| AppState.App.FailAdd | frontend/web/src/App.tsx:223-231 | a failed step shows the classified error message and clears the busy flag |
| AppState.App.FinishAdd | frontend/web/src/App.tsx:210-231 | after a confirmed creation the page reloads, closes the modal, resets the form and clears the busy flag |
| AppState.App.GatewaySteps | frontend/web/src/App.tsx:243-268 | the try block's outcome is `RevealOf` of how its awaited calls settle, and its calls are logged in order up to the one that settles it |
| AppState.App.DecryptGrade | frontend/web/src/App.tsx:234-293 | the returned value, the call log, the banner, the list and the flags after the flow, for every outcome; a reload happens exactly after a fresh reveal or the race |
| AppState.App.SelectTranscript | frontend/web/src/App.tsx:506 | clicking a card selects that course |
| AppState.App.CloseDetail | frontend/web/src/App.tsx:540-543 | closing the modal forgets the course and its local value |
| AppState.App.HandleDecrypt | frontend/web/src/App.tsx:670-680 | a held local value is cleared with no call made and the log, banner, list and both busy flags unchanged; otherwise `decryptGrade` runs for the selected course, a non-null result becomes the local value, and the log, banner, list and both busy flags end as `decryptGrade` leaves them |

## Left out

- Wallet connection, account hooks, FHE SDK initialisation, and the
  `encrypt` and `verifyDecryption` cryptography are not modelled. Each
  awaited call is an input saying how it settled. `getContractReadOnly` and
  `getContractWithSigner` are modelled as present or absent (null); their
  own failures are not modelled.
- In the reload, a read that throws is modelled as an id missing from the
  ledger's record map.
- The `setTimeout` dismissal of banners and the effect and async scheduling
  are not modelled. Two awaited flows never interleave here, and the
  transient "pending" banners that a later step overwrites appear only as
  intermediate states.
- `Date.now()` in the submitted id is the parameter `now`, so the id's
  uniqueness is not modelled.
- JSX, CSS, the chart, `toFixed` formatting, the FAQ and `testAvailability`
  (App.tsx:295-309, an availability banner) are presentation or transport,
  and are not modelled.
- Metrics are exact reals, so IEEE-754 rounding of the division and of the
  0.9/0.1 blend is not modelled. Ledger integers are unbounded naturals, so
  the precision loss of `Number()` on large values is not modelled.
- Text.Lower: lower-cases ASCII letters only, where `toLowerCase` folds all of Unicode.
- Text.ParseInt: reads the leading run of digits only, because the form
  inputs it is applied to hold digits only (`AppState.App.Valid`, which
  `AppState.App.SubmitSteps` requires).
  `parseInt`'s leading whitespace and sign handling are not modelled. It
  returns an exact natural where `parseInt` returns a double: a digit run
  above 2^53 is not rounded (the page reads "9007199254740993" as
  9007199254740992), and one above about 1.8e308 is not `Infinity`.
- AddForm.GradeValue: is the exact natural the grade's digits spell; the
  page gets `parseInt`'s double, rounded above 2^53 and `Infinity` (which
  `|| 0` keeps) beyond the double range.
- AddForm.CreditValue: is the exact natural the credit digits spell (or 1);
  the page gets `parseInt`'s double, with the same rounding and `Infinity`.
- Text.DecimalString: always spells every digit, where a template literal
  `${n}` switches to exponent notation from 1e21.
- AppState.App.HandleDecrypt: the modal's button is disabled while a
  decryption is in flight (App.tsx:727); the model does not carry that guard.
- AppState.App.GpaStatsNow: is a function of the current list, not a state
  field updated by an effect. A render between a list change and the
  effect that follows it is not modelled.
- The ledger contract's storage is not part of this model: which argument
  of `createBusinessData` becomes which field of the stored record, and a
  new record's initial verified flag and decrypted value, are assumed in
  `Lifecycle.SubmittedCourseReloads`. Nothing ties a fresh reveal to the
  reloaded record's verified flag.
