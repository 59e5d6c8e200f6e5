# Maintenance booking page: date selector and submit controller

This project models the client-side booking page of a vehicle maintenance
shop (`src/pages/MaintenancePage.js`). A visitor picks a date from a
seven-day window and submits their name, phone number, car model and
licence plate. The page fetches the fully booked dates from the server,
disables those dates, and auto-selects the first free date of the window.
If every date in the window is full, it moves the window one page on.
Before posting a booking it re-checks the selection. After a successful
post it shows a confirmation modal and resets itself.

Dates are day numbers counted from today: today is 0, tomorrow 1,
yesterday -1. The set of fully booked dates is a `set<int>`.

- `wrappers.dfy`: the `Option` type that stands for the source's `null`.
- `booking_window.dfy`, module `BookingWindow`:
  - the seven-day window `AvailableDates`;
  - `isDateFull` and `isSameDay`;
  - the offset a direct pick moves to (`OffsetFor`);
  - `Array.find` over the window (`FirstNotFull`);
  - the buttons' disabled and selected flags.
- `phone_validation.dfy`, module `PhoneValidation`: the phone-field
  validator. The pattern `^0[0-9]{9}$` is matched the way the regular
  expression reads. It is proved equal to an independent definition: ten
  characters, the first '0', all digits.
- `booking_state.dfy`, module `BookingState`:
  - the page's state (`PageState`);
  - each handler and the auto-advance effect as one pure, atomic
    transition;
  - the invariant those transitions keep (`Inv`);
  - `Run`, which replays any sequence of events from the mounted state;
  - the lemmas about all of these.
- `maintenance_page.dfy`, module `MaintenancePageComponent`: the component
  as a class. Its fields are the page's state hooks. Its methods update them
  through the same setter calls as the handlers. Each method is proved to
  perform its `BookingState` transition.

The server's replies are parameters:
- `FetchResult` for `GET /api/maintenance/booked-dates`;
- `PostOutcome` for `POST /api/maintenance`.

User-visible messages (toasts and the success alert) are `Notice` values,
returned in the order shown.

The auto-advance effect depends only on `bookedDates` and `dateLoading`
(line 61), not on `dateOffset`. After moving the window one page on, it
does not run again until the booked dates are fetched again. The model has
one `EffectFired` event per run of the effect.
`FullFirstWindowAdvancesOnePage` shows a single run advancing exactly one
page and selecting nothing.

`Step` admits each event only when the page can produce it:
- the reply to the mount fetch (line 48) only while the dates are loading;
- the refetch after a booking (line 142) only inside `Submitted`;
- user events only once the dates have loaded, since until then the page
  renders only a placeholder (lines 167-169);
- a submit only when the form's rules pass, since only then does the form
  layer call `onFinish`.

So in every state `Run` reaches, the selected date is not a booked one.
In the page, a fetch reply can still interleave with the user's actions and
leave a stale selection. For that reason `Submit`, `BeginSubmit` and
`OnFinish` accept any idle, well-formed state, including one whose selected
date has since been booked. Their contracts state the re-check of line 114
on such states, and `StaleSelectionRejected` shows one.

## Model

| member | source | states |
|---|---|---|
| `BookingWindow.IsDateFull` | src/pages/MaintenancePage.js:69-74 | a date is full exactly when it is in the booked set |
| `BookingWindow.AvailableDates` | src/pages/MaintenancePage.js:25-29 | the window has exactly 7 dates, the i-th being `offset + i` |
| `BookingWindow.WindowMembership` | src/pages/MaintenancePage.js:25-29 | a date is shown exactly when `offset <= day <= offset + 6` |
| `BookingWindow.IsSameDay` | src/pages/MaintenancePage.js:63-67 | two dates are the same day only when both are present and equal; an absent selection matches nothing |
| `BookingWindow.OffsetFor` | src/pages/MaintenancePage.js:79-85 | the new offset is a non-negative multiple of 5; it is 0 for a past date; otherwise `offset <= diffDays < offset + 5` |
| `BookingWindow.OffsetForIsLatestPageStart` | src/pages/MaintenancePage.js:83 | `floor(diff/5)*5` is the latest page start at or before the picked day |
| `BookingWindow.PickedDayInWindowDespiteTimeOfDay` | src/pages/MaintenancePage.js:79-85 | a date the pop-up delivers at an earlier time of day, so one whole day closer, still lands inside the new window |
| `BookingWindow.FirstNotFull` | src/pages/MaintenancePage.js:53 | `find` returns nothing exactly when every date is full; otherwise it returns a date that is not full and every date before it is full |
| `BookingWindow.FirstFreeDayOfWindow` | src/pages/MaintenancePage.js:53-54 | on the window, `find` returns the earliest non-full date in `offset..offset+6`, or nothing only when all seven are booked |
| `BookingWindow.DateButtons` | src/pages/MaintenancePage.js:190-207 | seven buttons; a button is disabled exactly when its date is full and selected exactly when it is the selected date |
| `BookingWindow.AtMostOneSelectedButton` | src/pages/MaintenancePage.js:192 | at most one button of the window shows as selected |
| `PhoneValidation.MatchDigits` | src/pages/MaintenancePage.js:160 | `[0-9]{n}$` matches exactly the strings of n digits |
| `PhoneValidation.MatchesPhonePattern` | src/pages/MaintenancePage.js:160 | `^0[0-9]{9}$` matches exactly the strings of 10 characters that start with '0' and are all digits |
| `PhoneValidation.IsBlank` | src/pages/MaintenancePage.js:157 | `!value` holds exactly for an absent value or the empty string |
| `PhoneValidation.ValidatePhoneNumber` | src/pages/MaintenancePage.js:156-165 | "required" exactly for an absent or empty value; accepted exactly when the value has 10 characters, starts with '0' and is all digits |
| `PhoneValidation.PhoneExamples` | src/pages/MaintenancePage.js:156-165 | "081234567" and "1812345678" are rejected as malformed, "0812345678" is accepted, "" is required |
| `BookingState.Initial` | src/pages/MaintenancePage.js:13-20 | on mount nothing is selected, the offset is 0, dates are loading, and the invariant holds |
| `BookingState.LoadedDates` | src/pages/MaintenancePage.js:36-41 | the reply's dates when it held an array; no dates when it held none or the fetch failed |
| `BookingState.ApplyFetch` | src/pages/MaintenancePage.js:31-45 | only the booked dates change, and loading ends on success and failure alike; a failure shows one error notice; the invariant is kept |
| `BookingState.AutoAdvance` | src/pages/MaintenancePage.js:51-61 | acts only when loaded and nothing is selected. It selects the first non-full date of the window, which is not booked. If all seven are booked it moves the window exactly one page on and selects nothing. Nothing else changes and the invariant is kept |
| `BookingState.AutoAdvanceWithNothingBooked` | src/pages/MaintenancePage.js:51-55 | with nothing booked, the first date of the window is selected |
| `BookingState.PickDate` | src/pages/MaintenancePage.js:76-90 | called only once the dates have loaded; a full date changes nothing and shows an error. Any other date becomes the selection and the pop-up closes. The window moves to offset 0 for a past date; otherwise the date lands in the window's first page. The invariant is kept |
| `BookingState.PrevDates` | src/pages/MaintenancePage.js:98-102 | a no-op at offset 0; otherwise exactly 5 back; never negative |
| `BookingState.NextDates` | src/pages/MaintenancePage.js:104-106 | exactly 5 on, nothing else changes |
| `BookingState.NextThenPrev` | src/pages/MaintenancePage.js:98-106 | next then previous restores the state |
| `BookingState.OpenDatePicker` | src/pages/MaintenancePage.js:220 | only the pop-up flag changes, to shown |
| `BookingState.EnterDetails` | src/pages/MaintenancePage.js:241-285 | only the form's values change |
| `BookingState.FailureReason` | src/pages/MaintenancePage.js:144 | the server's message when present and non-empty, otherwise the error's own message |
| `BookingState.FormAccepts` | src/pages/MaintenancePage.js:241-285 | the form passes its rules exactly when name, car model and licence plate are non-empty and the phone is 10 digits starting with '0' |
| `BookingState.BookingBody` | src/pages/MaintenancePage.js:121-125 | the posted body carries the form's values, the selected date and status pending |
| `BookingState.Submit` | src/pages/MaintenancePage.js:108-149 | Called only with a form that passes its rules, on any idle state, stale selections included. No selection: rejects first. A selected date now booked: rejects second. Both leave the state unchanged and post nothing. Otherwise it posts the form's values with the selected date and status pending, and the posted phone is 10 digits starting with '0'. On success the modal shows that booking with the awaiting-confirmation status; the form, selection and pop-up are reset; the offset is 0; the booked dates are refetched. On failure the state is unchanged and `FailureReason`'s text is shown: the server's message, or else the error's own message. `loading` always ends false |
| `BookingState.SubmitNeverPostsFullDate` | src/pages/MaintenancePage.js:114-117 | even from a state with a stale selection, a posted date is never in the booked set |
| `BookingState.StaleSelectionRejected` | src/pages/MaintenancePage.js:114-117 | a selected day 3 that has since been booked is rejected with the date-full notice; nothing is posted and the state is unchanged |
| `BookingState.CloseModal` | src/pages/MaintenancePage.js:151-154 | the modal hides and the held booking is dropped; nothing else changes |
| `BookingState.Step` | src/pages/MaintenancePage.js:51-154 | every event the page admits keeps the invariant: the mount fetch's reply only while loading, user events only once loaded, a submit only when the form's rules pass |
| `BookingState.Run` | src/pages/MaintenancePage.js:11-154 | any sequence of events keeps the invariant |
| `BookingState.ReachableStatesKeepInvariant` | src/pages/MaintenancePage.js:11-154 | in every state reachable from mounting: the offset is a non-negative multiple of 5, the modal shows exactly while it holds a booking, a selected date is never booked, and no submission is in flight |
| `BookingState.FullFirstWindowAdvancesOnePage` | src/pages/MaintenancePage.js:51-61 | with the first seven dates booked, the first effect run moves the window to offset 5 and selects nothing |
| `BookingState.ThirdDateBookedSelectsFirst` | src/pages/MaintenancePage.js:51-55 | with only day 2 booked, its button is disabled and day 0 is auto-selected |
| `BookingState.RejectedPostKeepsDraft` | src/pages/MaintenancePage.js:143-145 | a rejected post with message "slot taken" keeps the selection and fields and shows "slot taken" |
| `MaintenancePageComponent.MaintenancePage.constructor` | src/pages/MaintenancePage.js:13-20 | the hooks start in the mounted state |
| `MaintenancePageComponent.MaintenancePage.FetchBookedDates` | src/pages/MaintenancePage.js:31-45 | performs `ApplyFetch` when nothing is selected, also while a submission is in flight; leaves `loading` unchanged |
| `MaintenancePageComponent.MaintenancePage.AutoAdvanceEffect` | src/pages/MaintenancePage.js:51-61 | performs `AutoAdvance` |
| `MaintenancePageComponent.MaintenancePage.HandleDateChange` | src/pages/MaintenancePage.js:76-90 | performs `PickDate`; callable only once the dates have loaded, as the placeholder of lines 167-169 ensures |
| `MaintenancePageComponent.MaintenancePage.HandlePrevDates` | src/pages/MaintenancePage.js:98-102 | performs `PrevDates` |
| `MaintenancePageComponent.MaintenancePage.HandleNextDates` | src/pages/MaintenancePage.js:104-106 | performs `NextDates` |
| `MaintenancePageComponent.MaintenancePage.OpenDatePicker` | src/pages/MaintenancePage.js:220 | performs `OpenDatePicker` |
| `MaintenancePageComponent.MaintenancePage.EnterDetails` | src/pages/MaintenancePage.js:241-285 | performs `EnterDetails` |
| `MaintenancePageComponent.MaintenancePage.BeginSubmit` | src/pages/MaintenancePage.js:109-125 | accepts any idle state, stale selections included. No selection rejects first, a booked selection second. `loading` becomes true exactly when both checks pass, and then the body holds the form's values, the selected date and status pending. Nothing else changes |
| `MaintenancePageComponent.MaintenancePage.SettleSubmit` | src/pages/MaintenancePage.js:126-148 | from the in-flight state, performs the success or failure updates of `Submit` and ends with `loading` false |
| `MaintenancePageComponent.MaintenancePage.OnFinish` | src/pages/MaintenancePage.js:108-149 | `BeginSubmit` then, if it posted, `SettleSubmit`; together they perform `Submit` from any idle state, and keep the invariant when it held before |
| `MaintenancePageComponent.MaintenancePage.HandleModalClose` | src/pages/MaintenancePage.js:151-154 | performs `CloseModal` |

## Left out

- Network I/O. The GET of booked dates and the POST of a booking (lines 31-45, 126) are not performed. Their replies are the parameters `FetchResult` and `PostOutcome`.
- Asynchrony. Each handler, each fetch reply and each run of the effect is one atomic step.
  - The awaits inside `onFinish` (the post, the success alert, the refetch) are not interleaved with other events.
  - React's effect scheduling is not modelled. The environment decides when `EffectFired` happens. In the page it happens only after `bookedDates` or `dateLoading` change.
  - The button's `loading` flag blocks a second submit while one is in flight. Steps are atomic, so that double submit cannot be expressed.
- JavaScript dates. `today` is day 0, so the model does not capture:
  - that `today` is re-read on every render, so the day can roll over at midnight;
  - the millisecond subtraction of line 79;
  - the UTC-based `toISOString().slice(0, 10)` used by `isDateFull` (line 70) and for the posted `preferredDate` (line 123), versus the local-time fields used by `isSameDay`. East of UTC, early in the day, those strings name the previous calendar day. The model looks up and posts the local day number.
- `HandleDateChange`: takes the picked date's day number as `diffDays`. `PickedDayInWindowDespiteTimeOfDay` covers a date one whole day closer because of its time of day.
- `PickDate`: makes the same choice, `diffDays` = the day number. Its clause `offset <= day < offset + 5` holds only for that choice. For a pop-up date delivered at an earlier time of day, the page computes one day less, so day 5 gives offset 0, not 5. The date still lies in the window, as `PickedDayInWindowDespiteTimeOfDay` shows.
- `handleDateChange(null)`: not modelled; the page would throw in `isDateFull` at line 87. The model takes a date.
- Booked dates: the server's array of date strings is kept as a set of day numbers. `includes` only tests membership, so order and duplicates do not matter.
- Rendering. Not modelled:
  - JSX and CSS classes;
  - the markup of the loading placeholder (lines 167-169), whose blocking of user events is modelled by `Step`;
  - the Thai `formatDate` (lines 92-96);
  - `console.log`;
  - the texts of antd `message`, `Modal` and SweetAlert, which become `Notice` values.
- The form layer (lines 241-285) is modelled only as `FormAccepts`: required means non-empty, and the phone must pass `ValidatePhoneNumber`. Not modelled: antd's inline messages, its `maxLength` on the phone input, and the order in which it runs the rules.
- `src/App.js`: not modelled. It is a routing shell that reads a token from `localStorage` and listens for browser `storage` events.
