# Badminton reservation client, modelled in Dafny

This project models the client-side rules of a badminton court reservation
web app (a Next.js/React front end):

- `lib/api.ts`, the API client (module `Api`):
  - how the base URL is normalised and chosen;
  - how one HTTP attempt becomes an `ApiResponse`;
  - the primary/fallback retry rule;
  - the endpoint builders.
- `components/customer-info-step.tsx`, the customer details form (module `CustomerInfoStep`):
  - the email and phone validators;
  - the submit handler: trimming, the error map, the focus order and the payload.
- `app/find-booking/page.tsx`, the "find my booking" page (module `FindBooking`):
  - the search handler, with its email guard;
  - the grouping of reservations that lack times by `court_id|booking_date`;
  - one timeslot request per key;
  - the in-place fill-in of start and end times;
  - the status label and badge mappers.
- `app/page.tsx`, the booking wizard (module `BookingWizard`):
  - the five-step state machine and its handlers;
  - the confirm guard and the request it sends;
  - the outcome of the request;
  - which panels are shown, and the props they get.
- `components/timeslot-step.tsx` (module `TimeslotStep`):
  - the fetch guard;
  - the fallback to the placeholder slots;
  - the availability and selection rule for each tile.
- `components/confirmation-step.tsx` (module `ConfirmationStep`):
  - `renderValue`;
  - the null branch of the price formatter;
  - the time line, the notes block, the error alert and the two buttons.

Module `JsValues` holds the JavaScript semantics the code relies on:

- values as parsed from JSON, plus `undefined`;
- truthiness and property reads;
- `String(v)` and `Number(v)`, over integers;
- `trim` with the `\s` whitespace class.

Module `MockData` holds the two placeholder records the pages use (`lib/mock-data.ts`).

The network is not modelled. What one `fetch` produced is an input (`Api.Exchange`): either a transport failure, or a status with a body that parsed as JSON or did not. `Api.ApiCall` is then a total function of the configured URL, the endpoint, and the primary's and fallback's exchanges.

The find-booking page is given its responses as inputs:

- the lookup's response;
- a map from each key to the response for that key's timeslot list.

`FindBooking.FindBookingPage.HandleSearch` is then an imperative method:

- its collecting loop fills `groups`, the keys of `toFetch` and the issued requests;
- its fill-in loops update the reservation list in place;
- it is proved equal to the reference function `FindBooking.Search`.

The properties of the search are proved as lemmas about `Search`.

Stateful components (the wizard, the form, the timeslot panel, the search page) are classes whose fields are the component's `useState` hooks. Each handler is a method. The wizard's handlers are proved against pure transition functions, and the properties are stated about those functions.

Three details of `apiCall` the model keeps as the code has them:

- The failure's `error` is whatever truthy value the error body's `message` held, not necessarily a string.
- An empty `message` counts as absent, so a body with an empty message gives `HTTP <status>`.
- An HTTP error body that parses as `null` is not treated as empty: reading its `message` throws. `Api.AttemptFetchAsWritten` and `Api.ApiCallAsWritten` model this; `Api.AttemptFetch` and `Api.ApiCall` are the corrected client that the other lemmas describe (see "Findings").

## Model

| member | source | states |
|---|---|---|
| JsValues.Trim | components/customer-info-step.tsx:51-54 | the result has no whitespace at either end, is a contiguous slice of the input, and only whitespace lies before and after it |
| JsValues.TrimOfTrimmed | lib/api.ts:2 | a string with no whitespace at either end is its own trim |
| JsValues.TrimIdempotent | components/customer-info-step.tsx:51-54 | trimming twice equals trimming once |
| JsValues.TrimEmptyIff | lib/api.ts:2-4 | the trim is empty exactly when the string is all whitespace |
| JsValues.IntToString | lib/api.ts:41 | `String(n)` is non-empty and trimmed, and is digits behind an optional `-` |
| JsValues.NatToStringRoundTrip | lib/api.ts:41 | the decimal digits of `n` have the value `n` |
| JsValues.DigitsToNumber | app/find-booking/page.tsx:94 | `Number` of a non-empty digit string is that string's value |
| JsValues.NegatedDigitsToNumber | app/find-booking/page.tsx:94 | `Number` of `-` followed by digits is the negated value |
| JsValues.IntToStringRoundTrip | lib/api.ts:41 | `Number(String(n))` is `n` for every integer |
| Api.Normalize | lib/api.ts:3 | the result is a prefix of the input, never ends in `/`, and only `/` characters were removed |
| Api.NormalizeRemovesTrailingSlashes | lib/api.ts:3 | any string not ending in `/`, followed by any number of slashes, normalises to that string |
| Api.NormalizeIdempotent | lib/api.ts:3 | normalising twice equals normalising once |
| Api.PrimaryBase | lib/api.ts:2-4 | the primary base is non-empty and never ends in `/`; when the trimmed configured URL is empty or only slashes it is the default; otherwise it is that trimmed URL with exactly its trailing slashes removed |
| Api.SameBaseIff | lib/api.ts:70 | comparing the normalised bases is the same as comparing the bases |
| Api.BlankConfigurationUsesDefault | lib/api.ts:2-4 | an unset, blank or all-slash configured URL selects `http://localhost:8088` |
| Api.ExampleBase | lib/api.ts:2-4 | example of `PrimaryBase`: `https://api.example.com/` is used without its trailing slash |
| Api.HttpErrorOf | lib/api.ts:39-42 | the error is truthy; it is the body's truthy `message`, else exactly `HTTP ` followed by `String(status)`, whose digits read back as the status |
| Api.HttpErrorAttempt | lib/api.ts:34-43 | a non-2xx attempt returns a failure with a truthy error: the body's truthy `message`, or exactly `HTTP <status>` for an unparsable body or one without a truthy `message` |
| Api.AttemptFetch | lib/api.ts:14-55 | the corrected attempt throws exactly when `fetch` rejected, and otherwise succeeds exactly on a 2xx status; its values are in the rows below |
| Api.AttemptFetchAsWritten | lib/api.ts:14-55 | the attempt as written throws exactly when `fetch` rejected or a non-2xx body parsed as `null`, and otherwise succeeds exactly on a 2xx status |
| Api.Payload | lib/api.ts:45-54 | defined by its body (`data` of an enveloped body, else the body, else `null`); its properties are the rows `Api.EnvelopeUnwrapped` and `Api.BareBodyPassedThrough` |
| Api.EnvelopeUnwrapped | lib/api.ts:45-54 | a 2xx body that is an object owning `data` yields success with exactly that `data` |
| Api.BareBodyPassedThrough | lib/api.ts:45-54 | any other 2xx body is the success data unchanged, and an unparsable one is `null` |
| Api.AttemptErrorTruthy | lib/api.ts:39-42 | every failure an attempt returns carries a truthy error |
| Api.AsWrittenDiffersOnlyOnNullErrorBody | lib/api.ts:34-43 | the attempt as written and the corrected attempt differ exactly on a non-2xx response whose body is `null` |
| Api.NullErrorBodyThrowsAsWritten | lib/api.ts:35-41 | a 500 with body `null` throws a TypeError as written, and yields `HTTP 500` once corrected |
| Api.ApiCallOn | lib/api.ts:57-101 | the call never throws; it makes one or two attempts, primary first; the second is the fallback, made only after a failed primary and only when the bases differ; a successful primary is returned |
| Api.ApiCall | lib/api.ts:57-101 | `apiCall` on the corrected attempt, defined by its body; its properties are the rows `Api.ApiCallOn` to `Api.UnreachablePrimaryExample` |
| Api.ApiCallAsWritten | lib/api.ts:57-101 | `apiCall` on the attempt as written, defined by its body; its properties are the rows `Api.AsWrittenCallAgreesElsewhere` and `Api.NullErrorBodyCallAsWritten` |
| Api.AsWrittenCallAgreesElsewhere | lib/api.ts:14-101 | the client as written and the corrected one return the same call whenever neither fetch produced a non-2xx `null` body |
| Api.NullErrorBodyCallAsWritten | lib/api.ts:35-41 | with distinct bases, a primary 500 with body `null` and a throwing fallback fail with the TypeError's text as written, and with `HTTP 500` once corrected; both bases are tried |
| Api.PrimarySuccessReturned | lib/api.ts:61-64 | a 2xx primary is the result, and no fallback is attempted |
| Api.SameBaseSingleAttempt | lib/api.ts:65-92 | when the primary base is the fallback, exactly one attempt is made whatever happens; a throw is reported with its message or `Network error` |
| Api.FailedPrimaryTriesFallback | lib/api.ts:65-82 | after a primary failure with a truthy error and distinct bases, both bases are tried; the fallback's success or truthy failure wins, otherwise the primary's error |
| Api.HttpErrorTriesFallback | lib/api.ts:72-81 | after a primary HTTP error with distinct bases, the fallback's result is returned if it returned, else the primary's error |
| Api.TransportFailureTriesFallback | lib/api.ts:84-101 | after a primary transport failure with distinct bases, the fallback's result is returned whatever it is; if it throws too, the primary's message or `Network error` |
| Api.UnreachablePrimaryExample | lib/api.ts:84-92 | example of `TransportFailureTriesFallback`: with an unreachable `https://api.example.com/`, the fallback's enveloped courts list is the result |
| Api.ReservationBodyRoundTrip | lib/api.ts:116-128 | the reservation body parses back to exactly the request it was built from |
| Api.EndpointVerbs | lib/api.ts:104-148 | only the reservation and payment endpoints are POSTs with a body; the six others are GETs without one |
| Api.EndpointArgumentsRecoverable | lib/api.ts:112-137 | the id, the email, the date and the court id appear verbatim after their fixed prefixes |
| CustomerInfoStep.ValidEmail | components/customer-info-step.tsx:40-42 | the regex, defined by its body; the row `CustomerInfoStep.ValidEmailIffParts` characterises it |
| CustomerInfoStep.ValidPhone | components/customer-info-step.tsx:44-46 | defined by its body; the row `CustomerInfoStep.ValidPhoneIffTenDigits` characterises it |
| CustomerInfoStep.ValidEmailIffParts | components/customer-info-step.tsx:40-42 | an email is valid exactly when it is `A@B.C` with A, B and C non-empty and free of whitespace and `@` |
| CustomerInfoStep.PartsOfValidEmail | components/customer-info-step.tsx:40-42 | a valid email splits into such parts |
| CustomerInfoStep.ValidEmailOfParts | components/customer-info-step.tsx:40-42 | any such parts make a valid email |
| CustomerInfoStep.ValidEmailHasOneAt | components/customer-info-step.tsx:40-42 | a valid email has no whitespace and exactly one `@` |
| CustomerInfoStep.StripNonDigits | components/customer-info-step.tsx:45 | removing the non-digits leaves only digits, and never more characters |
| CustomerInfoStep.StripKeepsEveryDigit | components/customer-info-step.tsx:45 | the stripped string has one character per digit position of the input |
| CustomerInfoStep.ValidPhoneIffTenDigits | components/customer-info-step.tsx:44-46 | a phone is valid exactly when it contains at least ten digits, wherever they stand |
| CustomerInfoStep.ErrorsFor | components/customer-info-step.tsx:56-65 | the map has an entry for exactly the invalid fields, each with its fixed message |
| CustomerInfoStep.SubmitErrors | components/customer-info-step.tsx:56-65 | a name entry iff the name is empty; an email entry iff the email is empty or invalid; a phone entry iff the phone is empty or invalid; fixed messages |
| CustomerInfoStep.FirstInvalid | components/customer-info-step.tsx:70-73 | the focused field has an error, and every field before it in the order name, email, phone has none |
| CustomerInfoStep.NoErrorsIffAllValid | components/customer-info-step.tsx:56-82 | the details are submitted exactly when the trimmed name is non-empty and the trimmed email and phone are valid |
| CustomerInfoStep.CollectErrors | components/customer-info-step.tsx:56-65 | the field-by-field construction builds the error map for the three checks |
| CustomerInfoStep.CustomerInfoForm.constructor | components/customer-info-step.tsx:34-38 | the form starts with no errors and nothing focused |
| CustomerInfoStep.CustomerInfoForm.HandleSubmit | components/customer-info-step.tsx:48-83 | the errors are replaced by the map for the trimmed inputs; with no errors, focus is unchanged and exactly the trimmed four values are submitted; otherwise the first invalid field is focused and nothing is submitted |
| FindBooking.StatusLabel | app/find-booking/page.tsx:140-155 | an unknown status is shown as itself |
| FindBooking.StatusBadgeClass | app/find-booking/page.tsx:123-138 | an unknown status gets the blue class |
| FindBooking.StatusMappersFallBack | app/find-booking/page.tsx:123-155 | the label is the status itself, and the badge is blue, exactly for a status outside the five known ones |
| FindBooking.KnownStatusesDistinguished | app/find-booking/page.tsx:123-155 | distinct known statuses get distinct labels and distinct badge classes |
| FindBooking.ReservationList | app/find-booking/page.tsx:58-60 | `Array.isArray(data) ? data : [data]`, defined by its body; see `FindBooking.SingleReservationListed` |
| FindBooking.SingleReservationListed | app/find-booking/page.tsx:58-60 | example of `ReservationList`: a non-array result becomes a one-element list |
| FindBooking.Selected | app/find-booking/page.tsx:70-75 | the selection test, defined by its body; its consequences are the rows `FindBooking.KeysComplete`, `FindBooking.GroupOfExact` and `FindBooking.FillInRespectsSelection` |
| FindBooking.KeyFor | app/find-booking/page.tsx:64 | `` `${court_id}|${booking_date}` ``, defined by its body; its use is in the rows `FindBooking.KeysDistinct` to `FindBooking.GroupOfExact` |
| FindBooking.ScanEnd | app/find-booking/page.tsx:69-83 | the collecting loop stops at the first nullish reservation, or at the end of the list |
| FindBooking.ScanEndIsFirstNullish | app/find-booking/page.tsx:69-83 | a nullish entry with none before it is where the collection stops |
| FindBooking.KeysDistinct | app/find-booking/page.tsx:79-81 | the keys of `toFetch` are pairwise distinct |
| FindBooking.KeysComplete | app/find-booking/page.tsx:69-81 | every selected reservation's key is among the keys |
| FindBooking.FirstIndexIsFirst | app/find-booking/page.tsx:79-81 | each key was added by its first selected reservation |
| FindBooking.FetchesFollowKeys | app/find-booking/page.tsx:79-81 | one request per key, in key order, each built from that key's first reservation |
| FindBooking.OneFetchPerKey | app/find-booking/page.tsx:64-81 | exactly one timeslot request per distinct key of the selected reservations, in first-occurrence order, with the first reservation's date and court id |
| FindBooking.GroupNeedsKey | app/find-booking/page.tsx:76-78 | a key with no entry in `toFetch` has an empty group |
| FindBooking.GroupOfSound | app/find-booking/page.tsx:76-78 | every member of a key's group is a selected reservation of that key |
| FindBooking.GroupOfComplete | app/find-booking/page.tsx:76-78 | every selected reservation of a key is in that key's group |
| FindBooking.GroupOfSorted | app/find-booking/page.tsx:76-78 | a group lists its reservations in list order |
| FindBooking.GroupOfExact | app/find-booking/page.tsx:76-78 | a group is exactly the selected reservations of its key, in increasing order |
| FindBooking.FindSlot | app/find-booking/page.tsx:93-95 | a found slot is the first whose `Number(id)` equals `Number(timeslot_id)`; a nullish slot met before any match raises; no slot before the stop is nullish or matches |
| FindBooking.FillTimesChangesOnlyTimes | app/find-booking/page.tsx:96-99 | filling in sets the two times to the slot's and leaves every other property alone |
| FindBooking.RaisedKeepsLater | app/find-booking/page.tsx:89-104 | once a reservation's slot search throws, no later reservation of its key is changed |
| FindBooking.Filled | app/find-booking/page.tsx:85-107 | the value a reservation has after the fill-in, defined by its body; its properties are the rows `FindBooking.FillInRespectsSelection`, `FindBooking.MatchingSlotFillsTimes` and `FindBooking.RaisedKeepsLater` |
| FindBooking.Search | app/find-booking/page.tsx:39-121 | the reference for the search handler, defined by its body; its properties are the rows `FindBooking.InvalidEmailNoRequest` to `FindBooking.NullishEntryAbortsSearch`, and `FindBooking.FindBookingPage.HandleSearch` is proved equal to it |
| FindBooking.InvalidEmailNoRequest | app/find-booking/page.tsx:41-49 | no request is made exactly when the trimmed email is empty or invalid, and then the state is unchanged |
| FindBooking.LookupOutcomes | app/find-booking/page.tsx:109-118 | a failed or falsy lookup shows the placeholder reservation with no error; an empty list shows no reservations and the not-found message |
| FindBooking.CompletedSearchShowsList | app/find-booking/page.tsx:57-120 | a completed search shows the whole list in order, each entry filled as `Filled` says, no longer loading, with an error exactly for an empty list |
| FindBooking.FillInRespectsSelection | app/find-booking/page.tsx:69-104 | an unselected reservation is unchanged; a changed one is selected, its key's list was an array, and its times are those of the first matching slot; other properties are never changed |
| FindBooking.MatchingSlotFillsTimes | app/find-booking/page.tsx:90-104 | a selected reservation whose key's list has a match, with no nullish slot before it, gets a matching slot's times unless an earlier search of its key threw |
| FindBooking.SearchRequests | app/find-booking/page.tsx:55-81 | the requests are the email lookup followed by the timeslot requests of the collection |
| FindBooking.NullishEntryAbortsSearch | app/find-booking/page.tsx:69-83 | a nullish entry aborts the search: the page keeps loading with its previous reservations, and the requests issued before it stay issued |
| FindBooking.FindBookingPage.constructor | app/find-booking/page.tsx:30-33 | no reservations, not loading, not searched, no error |
| FindBooking.FindBookingPage.HandleSearch | app/find-booking/page.tsx:39-121 | the new state and the requests made are those of `Search` |
| FindBooking.CollectGroups | app/find-booking/page.tsx:69-83 | the loop stops at `ScanEnd`; its keys and requests are `KeysOf` and `FetchesOf`, and `groups` maps exactly those keys to their `GroupOf` |
| FindBooking.CollectOne | app/find-booking/page.tsx:70-82 | one reservation extends the keys, requests and groups as the reference definitions do |
| FindBooking.FillAll | app/find-booking/page.tsx:85-107 | after every group is processed, each reservation is `Filled` |
| FindBooking.FillGroup | app/find-booking/page.tsx:90-104 | one key's pass fills its group as `Filled` says, stops at a throwing search, and changes no other entry |
| FindBooking.FillOne | app/find-booking/page.tsx:92-99 | one reservation's search either throws and changes nothing, or writes its filled value |
| TimeslotStep.IsAvailable | components/timeslot-step.tsx:114-117 | defined by its body; its consequences for tiles are the rows `TimeslotStep.ExplicitAvailabilityOverridesActive` and `TimeslotStep.ActiveDecidesWithoutAvailable` |
| TimeslotStep.ExplicitAvailabilityOverridesActive | components/timeslot-step.tsx:114-121 | a boolean `available` decides the tile whatever `is_active` holds: `false` books an active slot, `true` offers an inactive one |
| TimeslotStep.ActiveDecidesWithoutAvailable | components/timeslot-step.tsx:114-121 | without a boolean `available`, a tile is booked exactly when `is_active` is falsy |
| TimeslotStep.TileOf | components/timeslot-step.tsx:119-142 | unavailable slots are booked tiles with no handler; a choice is selected iff `selectedTimeslotId === id` and reports id, start and end |
| TimeslotStep.ViewOf | components/timeslot-step.tsx:60-113 | disabled shows the disabled view; else loading shows the loading view; else a list of length 0 shows the no-timeslots message; else a non-empty array without nullish slots is a grid with one tile per slot, each that slot's tile; the render throws exactly in the remaining cases |
| TimeslotStep.SelectedTileIsTheChosenSlot | components/timeslot-step.tsx:136 | in the grid, a tile is a selected choice exactly when its slot is available and its id strictly equals the selected id |
| TimeslotStep.MockSlotsAllSelectable | lib/mock-data.ts:18-27 | every placeholder slot is selectable, is marked exactly for its own id, and reports its own id and hours |
| TimeslotStep.PlaceholderGridSelectable | components/timeslot-step.tsx:36-41 | the placeholder list renders as a grid of eight selectable tiles |
| TimeslotStep.EmptyListShowsMessage | components/timeslot-step.tsx:107-110 | example of `ViewOf`: an empty successful list shows the no-timeslots message |
| TimeslotStep.TimeslotPanel.constructor | components/timeslot-step.tsx:28-29 | an empty list, not loading |
| TimeslotStep.TimeslotPanel.StartFetch | components/timeslot-step.tsx:31-36 | no request unless date and court are both truthy; otherwise loading is set and the timeslot request for them is made |
| TimeslotStep.TimeslotPanel.FinishFetch | components/timeslot-step.tsx:37-42 | a successful truthy list is kept, even an empty one; anything else shows the placeholder slots; loading ends |
| ConfirmationStep.RenderValue | components/confirmation-step.tsx:48-52 | the fallback for null, undefined and `""`; any other value unchanged |
| ConfirmationStep.RenderValueKeepsPresent | components/confirmation-step.tsx:48-52 | the value is kept exactly when it is present or already equals the fallback |
| ConfirmationStep.FormatCurrency | components/confirmation-step.tsx:39-41 | `N/A` exactly for null and undefined; anything else goes to the formatter |
| ConfirmationStep.ZeroPriceIsFormatted | components/confirmation-step.tsx:39-46 | example of `FormatCurrency`: a price of 0 is formatted |
| ConfirmationStep.DateText | components/confirmation-step.tsx:74-76 | a falsy date shows the text `N/A`; a truthy date is shown by the locale formatter |
| ConfirmationStep.Render | components/confirmation-step.tsx:54-170 | the summary the step renders, defined by its body; its properties are the rows `ConfirmationStep.SummaryFallbacks` to `ConfirmationStep.ButtonsFollowLoading` |
| ConfirmationStep.TimeText | components/confirmation-step.tsx:84-86 | `<start> - <end>` when both are truthy, `N/A` otherwise |
| ConfirmationStep.TimeNeedsBothEnds | components/confirmation-step.tsx:84-86 | the time line reads `N/A` exactly when an end is missing |
| ConfirmationStep.SummaryFallbacks | components/confirmation-step.tsx:94-127 | a missing court shows `N/A`; a missing name, email or phone shows `-` |
| ConfirmationStep.NotesShownIffTruthy | components/confirmation-step.tsx:130-137 | the notes block appears exactly for truthy notes and shows them unchanged |
| ConfirmationStep.AlertShownIffTruthyError | components/confirmation-step.tsx:141-146 | the alert appears exactly for a truthy error and shows it |
| ConfirmationStep.ButtonsFollowLoading | components/confirmation-step.tsx:150-165 | both buttons are disabled exactly while loading; the label is `Processing...` exactly then, else `Make Reservation` |
| BookingWizard.DateSelected | app/page.tsx:42-46 | `handleDateSelected`, defined by its body; its properties are the rows `BookingWizard.HandlersAdvance` and `BookingWizard.NewDateKeepsLaterChoices` |
| BookingWizard.CourtSelected | app/page.tsx:48-58 | `handleCourtSelected`, defined by its body; see `BookingWizard.HandlersAdvance` and `BookingWizard.StepsThenConfirm` |
| BookingWizard.TimeslotSelected | app/page.tsx:60-70 | `handleTimeslotSelected`, defined by its body; see `BookingWizard.HandlersAdvance` and `BookingWizard.StepsThenConfirm` |
| BookingWizard.InfoSubmitted | app/page.tsx:72-76 | `handleCustomerInfoSubmitted`, defined by its body; see `BookingWizard.HandlersAdvance` and `BookingWizard.SubmittedDetailsShown` |
| BookingWizard.Edited | app/page.tsx:118-120 | `handleEdit`, defined by its body; see `BookingWizard.EditOnlyRewinds` |
| BookingWizard.ConfirmStarted | app/page.tsx:78-100 | the start of `handleConfirm`, defined by its body; see `BookingWizard.IncompleteConfirmSendsNothing`, `BookingWizard.StepsThenConfirm` and `BookingWizard.PendingConfirmDisablesButtons` |
| BookingWizard.ConfirmSettled | app/page.tsx:102-115 | the end of `handleConfirm`, defined by its body; see `BookingWizard.SettledOutcomes` and `BookingWizard.CreatedReservationPage` |
| BookingWizard.HandlersAdvance | app/page.tsx:42-76 | each selection handler moves to the next step and clears the error |
| BookingWizard.NewDateKeepsLaterChoices | app/page.tsx:42-46 | a new date, from any step, goes to the court step and keeps every other selection and the customer details |
| BookingWizard.EditOnlyRewinds | app/page.tsx:118-120 | editing sets the date step and changes nothing else |
| BookingWizard.IncompleteConfirmSendsNothing | app/page.tsx:78-87 | with a falsy date, court id or timeslot id, or no details, confirming sends nothing and only sets the missing-details error |
| BookingWizard.FalsyIdsCountAsMissing | app/page.tsx:79-87 | example of `IncompleteConfirmSendsNothing`: a court or timeslot id of 0, or an empty date, blocks the request |
| BookingWizard.StepsThenConfirm | app/page.tsx:42-100 | walking the four steps then confirming reaches the confirmation step and sends a request with the choices and details verbatim, which reads back unchanged |
| BookingWizard.SettledOutcomes | app/page.tsx:102-115 | loading ends either way; a truthy payload navigates to `/reservation/<id>`; otherwise the error is the answer's truthy error or `Failed to create reservation`, with no navigation |
| BookingWizard.CreatedReservationPage | app/page.tsx:107 | a created reservation with numeric id `n` navigates to `/reservation/` followed by the digits of `n` |
| BookingWizard.PanelsCumulative | app/page.tsx:136-197 | a panel is shown exactly when the current step is at or after the panel's own step |
| BookingWizard.DisabledCascade | app/page.tsx:152-178 | each panel's disabled condition implies the next one's; the customer panel is enabled exactly when the confirm guard's three selections are truthy |
| BookingWizard.PendingConfirmDisablesButtons | app/page.tsx:181-196 | a sent confirm disables both confirmation buttons, shows `Processing...` and clears the alert |
| BookingWizard.SubmittedDetailsShown | app/page.tsx:183-195 | details accepted by the form are shown unchanged on the confirmation step, with the notes block exactly for non-empty notes |
| BookingWizard.Home.constructor | app/page.tsx:22-40 | the date step, every selection null, no details, not loading, no error |
| BookingWizard.Home.HandleDateSelected | app/page.tsx:42-46 | the new state is `DateSelected` of the old one |
| BookingWizard.Home.HandleCourtSelected | app/page.tsx:48-58 | the new state is `CourtSelected` of the old one |
| BookingWizard.Home.HandleTimeslotSelected | app/page.tsx:60-70 | the new state is `TimeslotSelected` of the old one |
| BookingWizard.Home.HandleCustomerInfoSubmitted | app/page.tsx:72-76 | the new state is `InfoSubmitted` of the old one |
| BookingWizard.Home.HandleConfirm | app/page.tsx:78-100 | the pending state and the request sent, if any, are those of `ConfirmStarted` |
| BookingWizard.Home.ConfirmAnswered | app/page.tsx:102-115 | the state after the answer is `ConfirmSettled` of the old one |
| BookingWizard.Home.HandleEdit | app/page.tsx:118-120 | the new state is `Edited` of the old one |

## Left out

- The network, JSON parsing and header merging (lib/api.ts:26-32): each attempt's outcome is an input.
- Debug logging and the `NODE_ENV` checks are left out, because they do not affect results. The configured URL is a parameter instead of `process.env`.
- `Promise.all` over the timeslot requests (app/find-booking/page.tsx:87-106) runs the groups one after another: they write disjoint reservations, so the order does not matter.
- Races between overlapping effects or searches are not modelled, because each handler runs to completion.
- `Intl.NumberFormat` and `toLocaleDateString` are locale behaviour. The model records which value is formatted (`Localised`), not the text.
- components/date-step.tsx, components/court-step.tsx, the footer, the navbar, the layout and the reservation detail page are not part of this model: they are presentation, DOM measurement or date formatting.
- JSX, CSS classes (other than the status badge), toasts and the router are left out. Of navigation, only the target path is kept.
- JsValues.ToNumber: numbers are integers. Floating point, exponents, hexadecimal literals and `Infinity` are not modelled, so `Number` of such a string is NaN (`None`) here.
- JsValues.StrictEquals: two arrays or objects are never `===`, because values from separate JSON documents are distinct references. Aliasing within one document is not modelled.
- Api.MessageReadError: the TypeError's message follows V8's wording, which other engines phrase differently.
- The refs of the customer form and of the search field are assumed to be attached when a form is submitted, so `?.` never yields `undefined`.
- FindBooking.KeyFor: two different (court, date) pairs whose text contains `|` can collide on one key, as in the source. The model keeps that collision and does not rule it out.
- FindBooking.CollectGroups: a nullish reservation makes `forEach` throw. The model stops there and leaves the page loading, and does not model the unhandled rejection.
- The fill-in writes each reservation in place. The model works on a sequence of values, so two list entries that are the same object are not modelled.
- Api.ApiCall: it is built on the corrected attempt, so it and the lemmas about it describe the client with a `null` error body treated as `{}`. The code as written is `Api.ApiCallAsWritten`, which agrees with it on every other call (`Api.AsWrittenCallAgreesElsewhere`).
- TimeslotStep.ViewOf: a render that throws (a non-array list, or a nullish slot) is one `Broken` view. The particular error is not modelled.

## Findings

| source | as written | input that shows it | evidently intended | confidence | as-written member | corrected member |
|---|---|---|---|---|---|---|
| lib/api.ts:35-41 | `response.json().catch(() => ({}))` replaces only a body that fails to parse. A non-2xx body that parses as `null` is kept, and `errorData.message` then throws a TypeError inside `attemptFetch`, which the caller treats as a transport failure. | a 500 response with body `null` | an error body without a usable object is treated as `{}`, giving `HTTP 500` | not executed | Api.AttemptFetchAsWritten, Api.NullErrorBodyThrowsAsWritten, Api.ApiCallAsWritten, Api.NullErrorBodyCallAsWritten | Api.AttemptFetch, Api.HttpErrorAttempt, Api.ApiCall |
