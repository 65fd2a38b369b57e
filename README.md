# CPGRAMS-HP portal core, modelled in Dafny

CPGRAMS-HP is a single-page grievance portal for Himachal Pradesh, one browser
tab deep. A citizen signs in with a mobile number and a one-time code shown
on screen, files a grievance through a three-step wizard, follows it in a
tracking list and exchanges messages about it. An officer (a Grievance
Redressal Officer, GRO) signs in through a demo button and sees the
demonstration records split into "new", "pending" and "resolved" tabs. All
state lives in React component state and in the browser's key-value store:
`hp_user` holds the signed-in identity and `hp_grievances_<mobile>` holds that
number's grievances, most recent first.

This project models that logic:

- the controller in `App.tsx`: the view it shows, the sign-in guard with a
  deferred target, sign-in, sign-out, filing, opening a record, replying,
  and the role guard on the dashboard;
- the view-local state machines in `components/Views.tsx`: the sign-in
  wizard, the filing wizard, the reply box and the dashboard tab filter.

Modules:

- `Types`: the records of `types.ts`.
- `JsText`: the JavaScript string behaviour the guards rely on. It models
  `trim()`, decimal rendering, and the syntax `Number()` accepts (the
  StringNumericLiteral grammar of section 7.1.4.1.1 of ECMA-262).
- `SessionStore`: the key-value store.
- `Lifecycle`: building records and the two list transforms.
- `AppController`: class `App` with its `Valid()` invariant.
- `Auth`: class `AuthWizard`.
- `FileWizard`: class `GrievanceWizard`.
- `Details`: class `ReplyBox`.
- `Dashboard`: the tab filter and the three demonstration records.

State that the source mutates is modelled as class fields updated by
methods. Record construction and list transforms are modelled as functions.
The store is a `map` from key to parsed entry. The clock and `Math.random()`
are parameters.

The guard on the mobile number follows the code. The field's placeholder
(components/Views.tsx:607) asks for a "10-digit mobile number", and the
rejection message (components/Views.tsx:562) asks for "a valid 10-digit mobile
number". The test itself accepts any ten characters that `Number()` does not
read as NaN. The model proves both sides of that gap:

- every ten-digit string is accepted (`Auth.TenDigitsAccepted`);
- so are:
  - ten blanks (`Auth.BlankMobileAccepted`);
  - exponent forms such as `1e12345678` (`Auth.ExponentMobileAccepted`);
  - `0x` hex forms (`Auth.HexMobileAccepted`);
  - signed forms (`Auth.SignedMobileAccepted`);
  - `Infinity` with two blanks (`Auth.InfinityMobileAccepted`).

## Model

| member | source | states |
|---|---|---|
| AppController.App.NavigateTo | App.tsx:43-50 | Signed out, a request for the wizard or the tracking list leaves the view as it is, records the target as pending and opens the sign-in dialog; any other request shows the target at once; the invariant is kept |
| AppController.App.HandleAuthSuccess | App.tsx:24-33 | The identity becomes the user and is written under `hp_user`; the dialog closes; a pending target becomes the view and is cleared, otherwise the view stays |
| AppController.App.HandleLogout | App.tsx:35-40 | User and selection cleared, view home, only `hp_user` removed, and every mobile number's grievance list reads the same as before |
| AppController.App.HandleSubmitGrievance | App.tsx:52-82 | Without a user, state and store are unchanged; otherwise the stored list under `hp_grievances_<mobile>` becomes the new record followed by the old list, and the view becomes the tracking list |
| AppController.App.HandleViewDetails | App.tsx:84-87 | The chosen record (one of the user's stored records) becomes the selection and the details view shows; store and user unchanged |
| AppController.App.HandleReplyGrievance | App.tsx:89-112 | Without a user or a selection, nothing changes; otherwise the selection gets the reply and the stored list has each record with that id replaced by it; the selection stays in the stored list |
| AppController.App.constructor | App.tsx:10-22 | First render: home view, dialog closed, nothing pending or selected, user restored from `hp_user` |
| AppController.App.OpenAuthModal | App.tsx:119-120 | The Login and Register buttons (shown only signed out) open the dialog and change nothing else |
| AppController.App.CloseAuthModal | App.tsx:168-170 | Closing the dialog keeps any pending target |
| AppController.App.ShowDashboard | App.tsx:121 | The officer's Dashboard button shows the dashboard view, which then renders the officer dashboard |
| AppController.App.GoHome | App.tsx:122 | The home link and the fallback's Go Home button show the home view |
| AppController.App.BackToTrack | App.tsx:147 | Back to list from the details view shows the tracking list |
| AppController.Render | App.tsx:126-162 | The dashboard renders if and only if the view is the dashboard and the user is a GRO; on the dashboard view any other user, or none, gets the Unauthorized fallback; the tracking list needs a user and the details view a selection |
| AppController.DashboardRoles | App.tsx:152-162 | The officer identity sees the dashboard; a citizen identity sees the fallback |
| AppController.GuardedViewsHaveUser | App.tsx:133-142 | In every state the handlers keep, the tracking view shows the signed-in user's list and the wizard view has a user |
| AppController.FileFirstGrievance | App.tsx:43-82 | Guard, then sign-in, then submit: the deferred target is reached after sign-in, and the user's list then holds exactly the one new record, under review, with a three-step timeline and no replies |
| AppController.FileEach | App.tsx:52-82 | Each form filed in turn through one signed-in page's `handleSubmitGrievance` leaves the user's stored list equal to `Lifecycle.FileAll` of the list it held; the user and the invariant are kept, and the view ends on the tracking list |
| AppController.FileMany | App.tsx:52-82 | N submissions after signing in on a fresh store leave N records in the user's list, most recent first, on the tracking screen, with pairwise distinct ids when the clock readings are distinct |
| SessionStore.GrievanceKey | App.tsx:75 | The key is `hp_grievances_` followed by the mobile number |
| SessionStore.GrievanceKeysAreSeparate | App.tsx:75 | A grievance key is never `hp_user`, and different numbers have different keys |
| SessionStore.SessionAt | App.tsx:17-21 | A user is restored exactly when `hp_user` holds one |
| SessionStore.ListAt | App.tsx:76 | A missing entry reads as the empty list, and a stored list reads back as itself |
| SessionStore.SaveList | App.tsx:77 | After the write the key reads back the written list, and every other key is untouched |
| SessionStore.SaveListIsolated | App.tsx:75-77 | Writing one number's list changes neither the session nor another number's list |
| SessionStore.SaveSession | App.tsx:26 | The session reads back the stored identity, and other keys are untouched |
| SessionStore.ClearSession | App.tsx:37 | No session remains, and other keys are untouched |
| SessionStore.ClearSessionKeepsLists | App.tsx:37 | Removing `hp_user` leaves every grievance list as it was |
| SessionStore.SaveSessionKeepsLists | App.tsx:26 | Storing the session leaves every grievance list as it was |
| Lifecycle.GrievanceId | App.tsx:56 | The id is `HPG-` followed by the clock's milliseconds in decimal |
| Lifecycle.GrievanceIdInjective | App.tsx:56 | Different clock readings give different ids |
| Lifecycle.NewGrievance | App.tsx:55-73 | The record `handleSubmitGrievance` builds; it has no ensures of its own, and `Lifecycle.NewGrievanceShape` states what it holds |
| Lifecycle.NewGrievanceShape | App.tsx:55-73 | The new record copies the form's fields, takes the clock's time, is "Under Review" with no replies and no action taken report, and has the timeline Submitted, Assigned to Department, Under Review, in which the first two steps are completed and exactly the last step is current and names the status |
| Lifecycle.AddReply | App.tsx:92-102 | The replies grow by one at the end, authored "You" and dated by the clock; earlier replies are kept; `lastUpdated` moves to the clock and no other field changes |
| Lifecycle.Prepend | App.tsx:77 | The new record is first, the old list follows in order, and the length grows by one |
| Lifecycle.ReplaceById | App.tsx:110 | The length is kept, and each element is replaced exactly when its id matches |
| Lifecycle.ReplaceKeepsIds | App.tsx:110 | Replacing by id keeps the ids in order; a list without that id comes back unchanged |
| Lifecycle.ReplaceUniqueIsUpdateAt | App.tsx:110 | With unique ids, replacing by id rewrites exactly the one position holding that id |
| Lifecycle.ReplaceIdempotent | App.tsx:110 | Replacing twice with the same record equals replacing once |
| Lifecycle.PrependKeepsUniqueIds | App.tsx:77 | A record with an id not yet in the list keeps the ids unique |
| Lifecycle.FileAll | App.tsx:75-77 | Filing one record per form from a list of n records gives n plus the number of forms |
| Lifecycle.FileAllStep | App.tsx:75-77 | Filing the first i + 1 forms is filing form i in front of the list the first i gave |
| Lifecycle.FileAllOrder | App.tsx:75-77 | Filing N forms from an empty list gives N records, latest first |
| Lifecycle.FiledIdAt | App.tsx:56-77 | The record at position i of that list carries the id of the (N-1-i)-th clock reading |
| Lifecycle.FiledIdsDiffer | App.tsx:56-77 | Two records of that list whose clock readings differ have different ids |
| Lifecycle.FileAllUniqueIds | App.tsx:56-77 | If the clock readings are distinct, the filed records have pairwise distinct ids |
| Auth.AuthWizard.constructor | components/Views.tsx:554-558 | Number entry step, all fields empty |
| Auth.AuthWizard.EditMobile | components/Views.tsx:605-612 | At the number entry step, where alone the field is shown, the number field takes the typed text and nothing else changes |
| Auth.AuthWizard.EditOtp | components/Views.tsx:621-628 | At the code entry step, where alone the field is shown, the code field takes the typed text and nothing else changes |
| Auth.AuthWizard.SendOtp | components/Views.tsx:560-570 | Offered at the number entry step (line 613). A number failing the guard sets the error "Please enter a valid 10-digit mobile number" and keeps the step and the code; an accepted one clears the error, shows code entry, and overwrites any earlier code with the decimal string of `floor(1000 + random * 9000)`; code entry is reached only with a number the guard accepted (the invariant) |
| Auth.AuthWizard.IssueCode | components/Views.tsx:565-569 | The accepted branch: error cleared, code stored, code entry shown, and codes keep their four-digit shape |
| Auth.AuthWizard.Verify | components/Views.tsx:572-584 | Offered at the code entry step (line 629). Succeeds if and only if the entered code equals the generated one, yielding the citizen with id and mobile equal to the number and name "Citizen User"; a success is for a number the guard accepted and an issued four-digit code; otherwise the error "Incorrect OTP. Please try again." is set; step and code never change |
| Auth.AuthWizard.ChangeMobileNumber | components/Views.tsx:630 | From code entry, back to number entry with the old code still stored |
| Auth.AuthWizard.OfficerDemo | components/Views.tsx:586-594 | Always the fixed officer: id `admin`, name "Nodal Officer", role GRO, mobile `9999999999`, with no code check |
| Auth.CitizenIdentity | components/Views.tsx:574-579 | id and mobile are the number, role citizen, name "Citizen User" |
| Auth.OfficerIdentity | components/Views.tsx:587-592 | The fixed officer identity |
| Auth.MobileAccepted | components/Views.tsx:561 | The send-code guard as written: ten characters that `Number()` does not read as NaN; a predicate without ensures, characterised by `Auth.TenDigitsAccepted` and the other guard lemmas |
| Auth.OtpNumber | components/Views.tsx:567 | `Math.floor(1000 + random * 9000)` for random in [0, 1) lies in [1000, 9999] |
| Auth.GeneratedCodesAreCodeShaped | components/Views.tsx:567 | Every generated code has four digits and a non-zero first digit |
| Auth.OnlyCodeShapedEntriesVerify | components/Views.tsx:573 | While a code is shown, an entry that is not four digits with a non-zero first digit (for example the empty entry or "0000") does not verify |
| Auth.CitizenSignIn | components/Views.tsx:560-584 | For every ten-digit number and every random draw, entering "0000" fails and entering the shown code signs in as that citizen |
| Auth.TenDigitsAccepted | components/Views.tsx:561 | Every ten-digit string passes the guard |
| Auth.BlankMobileAccepted | components/Views.tsx:561 | Ten white-space characters pass the guard (`Number` reads them as 0) |
| Auth.ExponentMobileAccepted | components/Views.tsx:561 | Digits, `e`, digits, ten characters in all, pass the guard |
| Auth.HexMobileAccepted | components/Views.tsx:561 | `0x` and eight hexadecimal digits pass the guard |
| Auth.SignedMobileAccepted | components/Views.tsx:561 | A sign and nine digits pass the guard |
| Auth.InfinityMobileAccepted | components/Views.tsx:561 | `Infinity` and two trailing blanks pass the guard |
| Auth.LetterMobileRejected | components/Views.tsx:561-563 | Digits (the first non-zero) followed by a lower-case letter other than `e` and a non-blank end are rejected |
| Auth.LetterStringIsNoLiteral | components/Views.tsx:561 | Such a string is neither a StrDecimalLiteral nor a NonDecimalIntegerLiteral |
| JsText.TrimStart | components/Views.tsx:342 | The result is a suffix of the input; what was dropped is all white space; the result does not start with white space |
| JsText.TrimEnd | components/Views.tsx:342 | The result is a prefix of the input; what was dropped is all white space; the result does not end with white space |
| JsText.Trim | components/Views.tsx:342 | `trim()`: the result is the slice of the input that remains once the white space at both ends is dropped (only white space lies before and after it), and a non-empty result neither starts nor ends with white space |
| JsText.TrimIsSlice | components/Views.tsx:342 | The offset of that slice is the length of the leading white space |
| JsText.NumberIsNaN | components/Views.tsx:561 | `isNaN(Number(s))`: the trimmed string is non-empty and is neither a StrDecimalLiteral nor a NonDecimalIntegerLiteral; a predicate without ensures, characterised by `JsText.DigitsAreNumeric` and the guard lemmas of `Auth` |
| JsText.TrimEmptyIff | components/Views.tsx:342 | `trim()` gives the empty string if and only if every character is white space |
| JsText.DecimalString | components/Views.tsx:567 | The rendering is non-empty, all digits, and starts with `0` only for zero |
| JsText.DecimalRoundTrip | components/Views.tsx:567 | Reading the decimal rendering back gives the number |
| JsText.DecimalStringInjective | App.tsx:56 | Different numbers render differently |
| JsText.FourDigitRendering | components/Views.tsx:567 | A number in [1000, 9999] renders as four digits with a non-zero first digit |
| JsText.DigitPrefix | components/Views.tsx:561 | The longest run of leading digits: all digits, followed by a non-digit or the end |
| JsText.DigitsAreNumeric | components/Views.tsx:561 | A string of decimal digits is never NaN to `Number()` |
| JsText.TrimPadded | components/Views.tsx:561 | Trailing white space after a core that neither starts nor ends with white space is trimmed away exactly |
| JsText.DigitPrefixConcat | components/Views.tsx:561 | The digit run of digits followed by a non-digit is exactly the digits |
| FileWizard.WithText | components/Views.tsx:185-219 | Editing one text field changes only that field of the form |
| FileWizard.EmptyForm | components/Views.tsx:163-171 | The form as first rendered: every text field empty, no files, not anonymised (a constant) |
| FileWizard.FieldStep | components/Views.tsx:176-220 | District, location and category are rendered on step 1, subject and description on step 2 |
| FileWizard.GrievanceWizard.constructor | components/Views.tsx:162-171 | Step 1 with the empty form |
| FileWizard.GrievanceWizard.Next | components/Views.tsx:173 | `handleNext`, offered only below step 3 (line 277), and unconditional: the step goes up by one, the form is untouched, and 1 <= step <= 3 is kept |
| FileWizard.GrievanceWizard.Back | components/Views.tsx:174 | `handleBack`, enabled only away from step 1 (line 276): the step goes down by one, the form is untouched, and the range is kept |
| FileWizard.GrievanceWizard.EditText | components/Views.tsx:185-219 | A text input's change, offered only on the step that renders that input, updates that field only and keeps the step |
| FileWizard.GrievanceWizard.SetAnonymized | components/Views.tsx:226-231 | The checkbox, rendered on step 2, sets the anonymise flag only |
| FileWizard.GrievanceWizard.Submit | components/Views.tsx:279-280 | Offered only at step 3; hands over the form as it is, with no field checked and no file names |
| FileWizard.FillAndSubmit | components/Views.tsx:161-281 | Whatever is typed, two Next presses from a fresh wizard reach Submit, which hands over exactly what was typed |
| Details.CanSendIff | components/Views.tsx:403 | A message can be sent if and only if it has a character that is not white space |
| Details.CanSend | components/Views.tsx:342-403 | The reply guard `replyText.trim()` (also the Send button's enabling); a predicate without ensures, characterised by `Details.CanSendIff` |
| Details.ReplyBox.constructor | components/Views.tsx:339 | The reply box starts empty |
| Details.ReplyBox.Edit | components/Views.tsx:399 | The box takes the typed text |
| Details.ReplyBox.SubmitReply | components/Views.tsx:341-345 | A blank message is not sent and stays in the box; any other is sent untrimmed and the box empties |
| Dashboard.FilterByTab | components/Views.tsx:443-448 | The filtered list is no longer than the input |
| Dashboard.FilterMembers | components/Views.tsx:443-448 | A tab lists a record if and only if it is in the input and its status is in the tab's bucket |
| Dashboard.FilterCounts | components/Views.tsx:443-448 | A tab holds every occurrence of a record in its bucket, as many times as the input does, and no occurrence of any other record |
| Dashboard.FilterIsSubsequence | components/Views.tsx:443-448 | A tab's list is a subsequence of the input, in input order |
| Dashboard.BucketStatuses | components/Views.tsx:445-447 | "new" is exactly "Submitted", "pending" exactly "Pending" or "Reopened", "resolved" exactly "Resolved" |
| Dashboard.BucketsDisjoint | components/Views.tsx:445-447 | No status is in two buckets; "Under Review" and "In Progress" are in none |
| Dashboard.InBucket | components/Views.tsx:445-447 | The per-tab status test; a predicate without ensures, characterised by `Dashboard.BucketStatuses` |
| Dashboard.Unlisted | components/Views.tsx:443-448 | The records no tab shows are exactly those whose status is in no bucket |
| Dashboard.TabsPartition | components/Views.tsx:443-448 | The three tabs' lengths plus the unlisted records' count add up to the input's length |
| Dashboard.FilterThree | components/Views.tsx:443-448 | The filter over three records keeps each record exactly when it is in the bucket |
| Dashboard.MockTabs | constants.ts:3-62 | Over the demonstration records, "new" shows only HP-2024-003, "pending" only HP-2024-001, "resolved" only HP-2024-002 |
| Dashboard.MockGrievances | constants.ts:3-62 | The three demonstration records (a constant); `Dashboard.MockTabs` states how the tabs split them |

## Left out

- Rendering is not modelled: JSX, classes, `components/UI.tsx` and `components/Layout.tsx`. The few conditions they impose on the handlers are modelled as preconditions. The sign-in form only exists while the dialog is open. The tracking list offers only the user's stored records. The Dashboard button is shown only to a GRO, and the Login button only while signed out.
- SessionStore.ListAt: an entry under a grievance key that is not a list reads as the empty list. In the source `JSON.parse` returns such a value unchanged, and the spread at App.tsx:77 or the `.map` at App.tsx:110 then throws. The portal itself never writes a non-list there (`SessionStore.GrievanceKeysAreSeparate`), so only a store prepared outside it holds one.
- SessionStore.SessionAt: an entry under `hp_user` that is not a user, such as a list, reads as no session. In the source App.tsx:18-20 restores any non-empty stored string: `JSON.parse` turns it into a value, and that value becomes `user`. A stored `"[]"` thus gives the truthy user `[]`, which the guard at App.tsx:44 lets through. The portal itself only writes a user there (`SessionStore.SaveSession`), and no grievance key is `hp_user` (`SessionStore.GrievanceKeysAreSeparate`), so only a store prepared outside it holds such an entry.
- `localStorage`, `JSON.stringify` and `JSON.parse` are foreign calls. The store holds parsed values, so serialisation and its round trip are not modelled. A stored value that fails to parse throws at App.tsx:20, App.tsx:76 and App.tsx:109; the model has no such value.
- The Date readings are parameters:
  - `Date.now()` and the five `new Date().toISOString()` readings of one submission are one `ClockReading`; in the browser they may differ by milliseconds.
  - The reply's date and `lastUpdated` share one reading, `now`.
  - Ids are unique only if the clock readings are distinct. That is a precondition of `Lifecycle.FileAllUniqueIds`, not a guarantee of the code.
  - No claim is made that `lastUpdated` increases.
- Auth.OtpNumber: `Math.random()` is the parameter `random` in [0, 1). The arithmetic is on exact reals, not IEEE doubles.
- `alert` after submission is not modelled.
- Files are not modelled:
  - `File` objects are names only.
  - The step-2 file picker of the wizard is not connected to the form, so the model's form always has no files.
  - The browser's `maxLength` limits on the number (10), code (4) and description fields are input constraints and are not modelled.
- React effect scheduling, batching of state updates and rerenders are not modelled. Each handler is one atomic step.
- Last-writer-wins races between two tabs sharing the store are out of scope.
- The action taken report dialog of the dashboard (components/Views.tsx:528-547) is display-only and not modelled. Nor are the stat cards, home and FAQ content, or the status badges.
- Auth.AuthWizard.SendOtp: re-sending does draw a fresh code. "The old code no longer verifies" holds only when the new draw differs, so it is not claimed.
- The blank-message guard of replies lives in the reply box (`Details.ReplyBox.SubmitReply`). The controller's `HandleReplyGrievance` accepts any message, as it does in App.tsx.
