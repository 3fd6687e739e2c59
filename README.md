# Blood-donation appointment administration view, modelled in Dafny

The `DonationFormTable` view lets staff manage blood-donation appointments:

- it lists the appointments fetched from the store, with a search box and a sort key;
- "Xem phiếu" opens a survey modal, where a PENDING appointment can be approved or rejected after a confirmation dialog;
- a second modal records or edits the donation detail of an APPROVED or FULFILLED appointment.

The model has four parts:

- `AppointmentList`: the table's data source as pure functions. A null list becomes empty. Appointments are filtered by case-insensitive substring match of the search term against `String(id)`. They are then ordered by the source's comparator with a stable sort. A stable sort is what `Array.prototype.sort` must be (section 23.1.3.30 of ECMA-262, 2023 edition).
- `Strings`: the three string operations this relies on: ASCII `toLowerCase`, `String(n)` for a non-negative id, and `includes`.
- `DonationDate`: the donation-date rule as predicates over day numbers. The form validator and the date picker's `disabledDate` both use it.
- `DonationView`: the view's `useState` fields and the antd form store as the class `View`. Each handler is a method. Remote outcomes (`Outcome`, `Lookup`) and the `window.confirm` answer are inputs. The requests a handler dispatches (`Request`) are its result. The button-gating conditions are predicates. A few walk-through methods at the end of the file chain the handlers through six scenarios: approving a PENDING appointment, an APPROVED appointment without a detail, a FULFILLED one with a detail (whose unchanged detail cannot be saved, see Findings), a successful create, a failed create, and an appointment without a date.

Dates are integer day numbers; an appointment's date is optional, and a missing (null) date sorts as day 0, the epoch, as `new Date(null)` does. Appointment statuses and the sort key stay strings, as in the source. An unknown status gets priority 99. Any sort key other than `"status"` sorts by date.

## Model

| member | source | states |
|---|---|---|
| `Strings.Lower` | src/components/DonationFormTable/DonationFormTable.jsx:235 | lower-casing keeps the length and maps every character through ASCII lower-casing |
| `Strings.Decimal` | src/components/DonationFormTable/DonationFormTable.jsx:235 | `String(id)` is a non-empty string of digits without a leading zero |
| `Strings.DecimalRoundTrip` | src/components/DonationFormTable/DonationFormTable.jsx:235 | reading the digits of `String(id)` back gives `id`, so distinct ids give distinct strings |
| `Strings.LowerKeepsDigits` | src/components/DonationFormTable/DonationFormTable.jsx:235 | lower-casing a string of digits leaves it unchanged |
| `Strings.IncludesIffOccurs` | src/components/DonationFormTable/DonationFormTable.jsx:235 | `includes` holds exactly when the needle occurs at some start position of the haystack |
| `Strings.IncludesEmpty` | src/components/DonationFormTable/DonationFormTable.jsx:235 | every string includes the empty string |
| `AppointmentList.Priority` | src/components/DonationFormTable/DonationFormTable.jsx:239-247 | a known status gets a priority from 1 to 5; any other status gets 99 |
| `AppointmentList.StatusOrder` | src/components/DonationFormTable/DonationFormTable.jsx:239-247 | PENDING < APPROVED < FULFILLED < REJECTED < CANCELLED < any other status |
| `AppointmentList.MatchesDigits` | src/components/DonationFormTable/DonationFormTable.jsx:235 | an appointment matches exactly when the lower-cased term occurs in its id's digits; only the term's case matters |
| `AppointmentList.Filter` | src/components/DonationFormTable/DonationFormTable.jsx:234-236 | the filtered list is no longer than the input, and each of its appointments is in the input and matches the term |
| `AppointmentList.FilterAppend` | src/components/DonationFormTable/DonationFormTable.jsx:234-236 | filtering a concatenation is concatenating the filtered parts, so input order is kept |
| `AppointmentList.FilterCount` | src/components/DonationFormTable/DonationFormTable.jsx:234-236 | a matching appointment is kept as many times as it occurs; a non-matching one never |
| `AppointmentList.FilterMembers` | src/components/DonationFormTable/DonationFormTable.jsx:234-236 | an appointment is in the filtered list iff it is in the input and its id matches the term |
| `AppointmentList.FilterEmptyTerm` | src/components/DonationFormTable/DonationFormTable.jsx:234-236 | an empty search term keeps the whole list unchanged |
| `AppointmentList.SortDay` | src/components/DonationFormTable/DonationFormTable.jsx:251 | `new Date(a.date)` as a day: the appointment's day, or day 0 (the epoch) when its date is null |
| `AppointmentList.Compare` | src/components/DonationFormTable/DonationFormTable.jsx:237-252 | the comparator is at most zero exactly when the first appointment's key (priority, or date negated with a missing date as day 0) is at most the second's, and zero exactly on a tie |
| `AppointmentList.SortBy` | src/components/DonationFormTable/DonationFormTable.jsx:237-253 | sorting keeps the length; order, permutation and stability are the lemmas below |
| `AppointmentList.CompareIsRankDifference` | src/components/DonationFormTable/DonationFormTable.jsx:237-252 | the comparator is the difference of one integer key (priority, or date negated), hence antisymmetric and consistent |
| `AppointmentList.InsertPermutes` | src/components/DonationFormTable/DonationFormTable.jsx:237-253 | one insertion step of the sort adds exactly the inserted appointment |
| `AppointmentList.InsertSorted` | src/components/DonationFormTable/DonationFormTable.jsx:237-253 | one insertion step keeps a sorted list sorted |
| `AppointmentList.InsertOfRank` | src/components/DonationFormTable/DonationFormTable.jsx:237-253 | one insertion step keeps every tie class in the order of the unsorted sequence |
| `AppointmentList.SortPermutes` | src/components/DonationFormTable/DonationFormTable.jsx:237-253 | sorting returns a permutation of its input |
| `AppointmentList.SortSorts` | src/components/DonationFormTable/DonationFormTable.jsx:237-253 | the sorted list never has a later element comparing below an earlier one |
| `AppointmentList.SortStable` | src/components/DonationFormTable/DonationFormTable.jsx:237-253 | the elements that tie under the comparator keep their input order |
| `AppointmentList.SortedTiesDetermine` | src/components/DonationFormTable/DonationFormTable.jsx:237-253 | two sorted sequences with the same tie classes are equal |
| `AppointmentList.SortIsTheStableOrder` | src/components/DonationFormTable/DonationFormTable.jsx:237-253 | any sorted arrangement that keeps every tie class in input order is the model's result; a conforming stable sort has no other outcome |
| `AppointmentList.Derive` | src/components/DonationFormTable/DonationFormTable.jsx:233-253 | a null list gives no rows; the rows are no more than the list, and each is an appointment of the list matching the term |
| `AppointmentList.DeriveNull` | src/components/DonationFormTable/DonationFormTable.jsx:233 | a null appointment list yields no rows |
| `AppointmentList.DeriveRows` | src/components/DonationFormTable/DonationFormTable.jsx:233-253 | the rows are a permutation of the filtered list; an appointment shows iff it is in the list and matches the term |
| `AppointmentList.DeriveEmptyTerm` | src/components/DonationFormTable/DonationFormTable.jsx:233-253 | with an empty term the rows are a permutation of the whole list |
| `AppointmentList.DeriveByStatus` | src/components/DonationFormTable/DonationFormTable.jsx:238-248 | sorted by status, priorities never decrease down the table and unknown statuses come after all known ones |
| `AppointmentList.DeriveByDate` | src/components/DonationFormTable/DonationFormTable.jsx:249-252 | sorted by any other key, dates never increase down the table (most recent first), a missing date counting as day 0 |
| `AppointmentList.DeriveStable` | src/components/DonationFormTable/DonationFormTable.jsx:237-253 | rows that tie under the comparator appear in the order of the filtered list |
| `DonationDate.ValidatorAccepts` | src/components/DonationFormTable/DonationFormTable.jsx:371-386 | an empty value passes, no appointment date accepts any day, and otherwise a day is accepted iff it is not before the appointment date |
| `DonationDate.DisabledDate` | src/components/DonationFormTable/DonationFormTable.jsx:394-398 | without an appointment date no day is disabled; otherwise exactly the days before it are |
| `DonationDate.DisabledIffRejected` | src/components/DonationFormTable/DonationFormTable.jsx:394-398 | the picker disables a day exactly when the validator would reject it |
| `DonationView.DetailFields` | src/components/DonationFormTable/DonationFormTable.jsx:113-121 | a found detail fills the seven detail keys, the three form items among them; id, location, amount, blood type, user id and notes are copied, and the date field holds the detail's own date as a parsed native date, or null when it has none |
| `DonationView.SelectedDate` | src/components/DonationFormTable/DonationFormTable.jsx:375-377 | the date rule compares with the selection's date when there is a selection, and with none otherwise |
| `DonationView.DateRuleAccepts` | src/components/DonationFormTable/DonationFormTable.jsx:371-386 | a falsy value, or any value without an appointment date, passes; a picked day passes iff the date validator accepts it; a parsed native date fails when there is an appointment date, because the validator calls `toDate` on it and throws |
| `DonationView.FormAccepts` | src/components/DonationFormTable/DonationFormTable.jsx:355-405 | a form that passes holds the three items, none null or empty, and, for an appointment with a date, a picked day no earlier than it |
| `DonationView.LoadedDateBlocksSave` | src/components/DonationFormTable/DonationFormTable.jsx:371-386 | as written, a found detail with a date never passes validation against an appointment that has a date |
| `DonationView.CorrectedDetailFields` | src/components/DonationFormTable/DonationFormTable.jsx:113-121 | the corrected filling puts the stored date into the date field as a picked day and leaves the other keys as written |
| `DonationView.CorrectedDetailSaves` | src/components/DonationFormTable/DonationFormTable.jsx:113-121 | with the corrected filling, a loaded detail with a date passes validation iff its day is not before the appointment day |
| `DonationView.Choosable` | src/components/DonationFormTable/DonationFormTable.jsx:359-412 | an offered choice belongs to one of the three items; an offered volume or blood type is a positive number, so it meets its `required` rule; an offered date-field value is a picked day or null and meets the date rule |
| `DonationView.Submitted` | src/components/DonationFormTable/DonationFormTable.jsx:353 | `onFinish` receives the store's values of the three form items and nothing else |
| `DonationView.Payload` | src/components/DonationFormTable/DonationFormTable.jsx:71-76 | the payload is the submitted values with `appointmentId`, `staffId` and `memberId` written over from the selection and the user; other keys unchanged |
| `DonationView.SubmitRequest` | src/components/DonationFormTable/DonationFormTable.jsx:78-82 | the request is an update iff the selection is FULFILLED, an update targets the selection's id, and both carry the payload |
| `DonationView.DonationEntryEnabled` | src/components/DonationFormTable/DonationFormTable.jsx:179 | a row's donation button is enabled iff its status is APPROVED or FULFILLED |
| `DonationView.DecisionOffered` | src/components/DonationFormTable/DonationFormTable.jsx:273 | approve and reject are offered only for a selection that cannot take donation entry |
| `DonationView.EditToggleOffered` | src/components/DonationFormTable/DonationFormTable.jsx:331 | the edit toggle is offered only for a selection that can take donation entry |
| `DonationView.IsReadOnly` | src/components/DonationFormTable/DonationFormTable.jsx:135 | the inputs are read-only iff the edit toggle is offered and edit mode is off |
| `DonationView.SaveDisabled` | src/components/DonationFormTable/DonationFormTable.jsx:347 | Save is disabled iff the inputs are read-only |
| `DonationView.View.constructor` | src/components/DonationFormTable/DonationFormTable.jsx:34-40 | nothing selected, both modals hidden, edit mode off, empty form, empty search, sort by status |
| `DonationView.View.Rows` | src/components/DonationFormTable/DonationFormTable.jsx:232-254 | the table's rows under the current search term and sort key are a permutation of the matching appointments, ordered by the comparator |
| `DonationView.View.SetSearchTerm` | src/components/DonationFormTable/DonationFormTable.jsx:218 | the search term becomes the typed text; nothing else changes |
| `DonationView.View.SetSortKey` | src/components/DonationFormTable/DonationFormTable.jsx:222 | the sort key becomes the chosen one; nothing else changes |
| `DonationView.View.ViewForm` | src/components/DonationFormTable/DonationFormTable.jsx:53-56 | only while the donation modal (whose mask covers the table) is closed; selects the row and opens the survey modal; nothing else changes |
| `DonationView.View.CloseSurvey` | src/components/DonationFormTable/DonationFormTable.jsx:271 | hides the survey modal; nothing else changes |
| `DonationView.View.StatusUpdate` | src/components/DonationFormTable/DonationFormTable.jsx:58-68 | always requests the given status for the given id; only a success hides the survey modal; nothing else changes |
| `DonationView.View.Decide` | src/components/DonationFormTable/DonationFormTable.jsx:273-296 | only from the open survey modal, and offered only for a PENDING selection; requests APPROVED or REJECTED for the selection iff confirmed, and otherwise sends nothing and changes nothing |
| `DonationView.View.OpenDonationModal` | src/components/DonationFormTable/DonationFormTable.jsx:102-133 | only while the survey modal (whose mask covers the table) is closed, and only for a row whose donation button is enabled (APPROVED or FULFILLED); requests the row's donation detail; selects the row, shows the modal and turns edit mode off; a found detail is merged into the form; "not found" and a lookup error both clear it; read-only iff the row is FULFILLED |
| `DonationView.View.EnterField` | src/components/DonationFormTable/DonationFormTable.jsx:354-413 | only when not read-only, only an offered choice; sets that one field; a picked date-field value always satisfies the date rule |
| `DonationView.View.SubmitDonation` | src/components/DonationFormTable/DonationFormTable.jsx:70-100 | reached from the open donation modal, so only for an APPROVED or FULFILLED selection; sends the create or update request; on success also requests FULFILLED for the same id, hides the modal, clears the form and leaves edit mode; a failure changes no state |
| `DonationView.View.Save` | src/components/DonationFormTable/DonationFormTable.jsx:343-350 | only when Save is enabled; sends nothing and changes nothing iff validation fails; anything sent is for an APPROVED or FULFILLED selection and, for an appointment with a date, carries a picked donation day no earlier than it; on success the modal closes on a clear form with edit mode off, and a failed request changes no state |
| `DonationView.View.CancelDonationModal` | src/components/DonationFormTable/DonationFormTable.jsx:325-329 | the X hides the modal, clears the form and turns edit mode off |
| `DonationView.View.CloseDonationModal` | src/components/DonationFormTable/DonationFormTable.jsx:340-342 | "Đóng" only hides the modal; form and edit mode keep their values |
| `DonationView.View.ToggleEditMode` | src/components/DonationFormTable/DonationFormTable.jsx:331-338 | offered only for a FULFILLED selection; flips edit mode, and with it read-only-ness, and changes nothing else |

## Left out

- Rendering is not modelled: JSX, antd components, styling, pagination, tag colours, the survey answers with their placeholders, and all notification texts.
- The remote gateway and the Redux store are not modelled: the thunks, `unwrap`, and the `fetchAllAppointments` effect (lines 42-44). Every remote result is an `Outcome` or `Lookup` input. The acting user's id is a parameter. The appointment list is a parameter of `Derive` and `View.Rows`.
- `window.confirm` is a browser dialog; its answer is the `confirmed` input of `View.Decide`.
- Concurrency is not modelled. Each handler runs atomically, so overlapping donation-detail lookups cannot race, and the moment between opening the modal and the lookup settling does not exist in the model.
- Dates are integer day numbers. `parseISO`, dayjs `toDate()`, `new Date(...)`, time of day, time zones and `toLocaleDateString` are not modelled. A missing appointment date is modelled as null. An appointment date that is `undefined`, empty or does not parse is not modelled in the date sort: `new Date(...)` gives `NaN` there, and for a `NaN` comparator result the engine's order is implementation-defined.
- The appointment's phone, address, time range and nine survey answers are not modelled. Only rendering reads them.
- `AppointmentList.Priority`: status priorities come from a plain object lookup. A status naming an inherited property such as `"constructor"` is not modelled; it would give a `NaN` comparison. Every other unknown status gets 99, as modelled.
- `Strings.Lower` covers ASCII only. Unicode case mapping is not modelled.
- `Strings.Decimal` models `String(id)` for non-negative integer ids. An id of 10^21 or more, which JavaScript writes in exponent form, is not modelled. Nor is an id that is itself a string.
- `DonationView.Value`: the form store holds a number, a text, a picked day, a parsed native date or null. A value of another shape in the date field is excluded by `View.Valid`. How the date picker renders a native date it was handed is not modelled.
- Validation messages are not modelled. A form that fails validation simply sends nothing (`View.Save`).

## Findings

| source | as written | input that shows it | evidently intended | confidence | as-written member | corrected member |
|---|---|---|---|---|---|---|
| src/components/DonationFormTable/DonationFormTable.jsx:115 | a found detail's date is stored with `parseISO`, a native `Date`; the date validator (line 379) calls `value.toDate()`, which a `Date` lacks, so the validator throws and the field fails whenever the appointment has a date | open the donation modal for a FULFILLED appointment dated 2024-05-10 (day 19853) whose detail has the same date, switch edit mode on and press Save: nothing is sent | the loaded date enters the field as a picker day, so the unchanged detail of a donation on or after the appointment day can be saved | medium, not executed | `DonationView.LoadedDateBlocksSave` | `DonationView.CorrectedDetailSaves` |

`DonationView.View.OpenDonationModal` keeps the behaviour as written (it fills the form with `DetailFields`), and the walk-through `OpenFulfilledWithDetail` shows Save sending nothing. `DonationView.CorrectedDetailFields` is the filling the handler evidently intends.
