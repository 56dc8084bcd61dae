# Luna booking flows in Dafny

Luna is the front end of a beauty salon's booking site. A visitor picks a
service, a professional (or "sin preferencia", no preference), a date and a
free time slot. The site has two independent flows for this, and this
project models both, together with the pure rules they share:

- **The single-page selection** (`Step1Selection`). One state record holds
  the four selections and, for each of the three fetched collections
  (services, professionals, slots), a loading flag, an error and the list.
  - Every choice is an atomic update that clears what depends on it.
  - Every fetch is a start followed, later, by its success or failure.
  - Effects decide which fetch is issued after a transition, and when the
    completion callback fires.
- **The paginated wizard** (`WizardContainer` and the four step pages
  `Step1Service`, `Step2Professional`, `Step3Date`, `Step4Time`). A step
  counter in 1..6 is advanced by each page's handler and decremented by
  "Volver". Each page has its own fetch lifecycle and its own
  continue-only-when-chosen guard. Redoing an earlier page clears nothing
  collected later.
- **Pure rules**:
  - the total duration of a service;
  - the date picker's bounds, with today as a parameter;
  - the step indicator's classification;
  - the three selectors' view precedence (loading, error, empty, list) and
    their selection-identity tests.

The modelling choices:

- `null` is `Option`.
- A fetch's outcome is an input, `Success(data) | Failure`, and a response
  may arrive at any time, in any order.
- JavaScript truthiness of a nullable string (`""` counts as unset) is
  `Types.Truthy`.
- Each React effect is a function of the state before and after a
  transition, saying which fetch it issues or which completion it fires.
- Components that update their state cells step by step are classes with
  those cells as fields. Their methods are proved against the pure
  transition functions.

One file per source file:

| Dafny file | module | source |
|---|---|---|
| types.dfy | `Types` | lib/types.ts |
| booking_helpers.dfy | `BookingHelpers` | lib/booking-helpers.ts |
| step_indicator.dfy | `StepIndicator` | components/booking/StepIndicator.tsx |
| service_selector.dfy | `ServiceSelector` | components/booking/Step1Selection/ServiceSelector.tsx |
| professional_selector.dfy | `ProfessionalSelector` | components/booking/Step1Selection/ProfessionalSelector.tsx |
| time_slot_grid.dfy | `TimeSlotGrid` | components/booking/Step1Selection/TimeSlotGrid.tsx |
| selection_store.dfy | `Step1Selection` | components/booking/Step1Selection/index.tsx |
| wizard_container.dfy | `WizardContainer` | components/booking/WizardContainer.tsx |
| step1_service.dfy | `Step1Service` | components/booking/Step1Service.tsx |
| step2_professional.dfy | `Step2Professional` | components/booking/Step2Professional.tsx |
| step3_date.dfy | `Step3Date` | components/booking/Step3Date.tsx |
| step4_time.dfy | `Step4Time` | components/booking/Step4Time.tsx |

The page machine of the single-page flow (`Step`, `Effects`, `Run`) runs
the code's handlers as written. The correction described under Findings is a
separate step (`CorrectedStep`), used by `SelectionStore.Dispatch`. Two facts
about the code that the model keeps:

- The single-page flow has no guard against stale responses. Whichever slot
  response arrives last is what the grid lists (`Step1Selection.LastSlotsResponseWins`).
- The professionals join has no ordering, so professionals are not assumed
  to be sorted by name.

## Model

| member | source | states |
|---|---|---|
| Types.ParseStatus | lib/types.ts:43 | a status text is accepted exactly when it is one of "pending", "confirmed", "cancelled", "completed" |
| Types.ParseStatusText | lib/types.ts:43 | every booking status reads back from its text |
| Types.StatusTextOfParse | lib/types.ts:43 | an accepted text is exactly the text of the status it denotes |
| Types.Somes | components/booking/Step1Selection/index.tsx:110-112 | `filter(Boolean)` over nullable join entries keeps exactly the present values and never lengthens the list |
| Types.SomesAppend | components/booking/Step1Selection/index.tsx:110-112 | the filter keeps order: it distributes over concatenation |
| Types.SomesAllPresent | components/booking/Step1Selection/index.tsx:110-112 | with no null entry, the filter keeps every entry, in place |
| BookingHelpers.TotalDuration | lib/booking-helpers.ts:37-39 | the total is the duration plus the buffer; a null buffer adds 0 |
| BookingHelpers.TotalDurationCoversService | lib/booking-helpers.ts:37-39 | with a non-negative buffer the total is at least the duration; it equals the duration iff the buffer is null or 0 |
| BookingHelpers.DaysInMonth | lib/booking-helpers.ts:55 | every month of the Gregorian calendar that `setMonth` uses has 28 to 31 days |
| BookingHelpers.AddMonths | lib/booking-helpers.ts:53-56 | `setMonth(getMonth() + k)` gives a valid date k months on with the same day, or one month further when the day overflows, the day reduced by the target month's length |
| BookingHelpers.ThreeMonthsLater | lib/booking-helpers.ts:53-56 | three months on is strictly later than today, and 3 or 4 months on |
| BookingHelpers.Pad | lib/booking-helpers.ts:46 | a zero-padded numeral has exactly the width asked for and only digits |
| BookingHelpers.PadRoundTrip | lib/booking-helpers.ts:46 | a padded numeral reads back to its number when the number fits |
| BookingHelpers.ParseIsoDate | lib/booking-helpers.ts:46 | only "YYYY-MM-DD" texts naming real calendar dates are read back |
| BookingHelpers.IsoDateRoundTrip | lib/booking-helpers.ts:45-47 | for years 0..9999 the date text has 10 characters, dashes at positions 4 and 7, digits elsewhere, and reads back to the date |
| BookingHelpers.LexLessConcat | lib/booking-helpers.ts:45-57 | string order on concatenations with equal-length heads compares the heads first |
| BookingHelpers.PadOrder | lib/booking-helpers.ts:46 | padded numerals of one width compare as the numbers do (both < and =) |
| BookingHelpers.IsoDateOrder | lib/booking-helpers.ts:45-57 | for four-digit years the text order of ISO dates is exactly the calendar order |
| BookingHelpers.MinBookingDateIsToday | lib/booking-helpers.ts:41-47 | `getMinBookingDate` is a 10-character "YYYY-MM-DD" that reads back to today |
| BookingHelpers.MaxBookingDateAfterMin | lib/booking-helpers.ts:49-57 | `getMaxBookingDate` reads back to today plus three months, which is strictly after today as a date and as a string |
| StepIndicator.StatusOf | components/booking/StepIndicator.tsx:24-30 | a step is current iff its number equals the current step, completed iff smaller, pending iff larger |
| StepIndicator.Render | components/booking/StepIndicator.tsx:7-66 | six views numbered 1..6 with the fixed labels; check mark iff completed, else the number; rose circle iff current, green iff completed; label coloured like the circle; a connector after all but the last, green iff that step is completed |
| StepIndicator.CountPrefix | components/booking/StepIndicator.tsx:19-30 | among the first k steps, the current and completed counts are as the current step dictates |
| StepIndicator.ExactlyOneCurrent | components/booking/StepIndicator.tsx:24-30 | for a current step in 1..6 exactly one step is current and exactly currentStep-1 are completed |
| StepIndicator.FiveConnectors | components/booking/StepIndicator.tsx:58-66 | there are exactly five connectors |
| ServiceSelector.Render | components/booking/Step1Selection/ServiceSelector.tsx:24-60 | loading wins; then a truthy error, with no retry; then the empty notice; then one card per service, pressed iff its id is the selected id, showing `getTotalDuration`, whose click hands on that service |
| ServiceSelector.AtMostOneServicePressed | components/booking/Step1Selection/ServiceSelector.tsx:54 | no card is pressed without a selection; with unique ids at most one is |
| ProfessionalSelector.Render | components/booking/Step1Selection/ProfessionalSelector.tsx:25-133 | loading, then error (no retry), then empty, then "sin preferencia" (handing on null, pressed iff the selection is null) and one card per professional (handing it on, pressed iff ids match) |
| ProfessionalSelector.NoPreferenceNeedsProfessionals | components/booking/Step1Selection/ProfessionalSelector.tsx:33-40 | with an empty list no button at all is offered, "sin preferencia" included |
| ProfessionalSelector.AtMostOneProfessionalPressed | components/booking/Step1Selection/ProfessionalSelector.tsx:42-128 | with unique ids at most one of all offered buttons is pressed |
| TimeSlotGrid.SameSlotIsEquality | components/booking/Step1Selection/TimeSlotGrid.tsx:57-59 | comparing start and end is slot equality |
| TimeSlotGrid.Label | components/booking/Step1Selection/TimeSlotGrid.tsx:50 | the count label is singular iff there is exactly one slot |
| TimeSlotGrid.Render | components/booking/Step1Selection/TimeSlotGrid.tsx:26-64 | loading whatever else holds; then the error with the retry; then empty; then the count, one button per slot handing it on, pressed iff it equals the selection, and the summary of the selection |
| TimeSlotGrid.PressedAreCopiesOfSelection | components/booking/Step1Selection/TimeSlotGrid.tsx:57-59 | nothing is pressed without a selection; a button is pressed iff the selected slot is in the list |
| Step1Selection.PartsDetermineState | components/booking/Step1Selection/index.tsx:21-42 | the selections and the three collections cover the whole record, so the per-part frame conditions below say "nothing else changes" |
| Step1Selection.InitialState | components/booking/Step1Selection/index.tsx:45-62 | all selections null, services loading, the other flags down, no errors, all lists empty |
| Step1Selection.ServiceChosen | components/booking/Step1Selection/index.tsx:161-175 | the service is set; professional, date, slot and both dependent lists are cleared; flags, errors and the service list are unchanged |
| Step1Selection.ProfessionalChosen | components/booking/Step1Selection/index.tsx:177-185 | the professional (null allowed) is set; only the slot and the slot list are cleared |
| Step1Selection.DateChosen | components/booking/Step1Selection/index.tsx:187-195 | the date is set; only the slot and the slot list are cleared |
| Step1Selection.SlotChosen | components/booking/Step1Selection/index.tsx:197-202 | only the slot changes |
| Step1Selection.ServicesFetchStarted | components/booking/Step1Selection/index.tsx:68 | services loading on, their error cleared, everything else unchanged |
| Step1Selection.ServicesFetchFinished | components/booking/Step1Selection/index.tsx:70-90 | success stores the rows (null as []), failure sets the fixed message and keeps the list; loading ends; the other parts are unchanged |
| Step1Selection.ProfessionalsFetchStarted | components/booking/Step1Selection/index.tsx:95-99 | professionals loading on, their error cleared, everything else unchanged |
| Step1Selection.ProfessionalsFetchFinished | components/booking/Step1Selection/index.tsx:101-126 | success stores the present join entries in row order; failure, including null data (on which `data.map` throws), sets the fixed message and keeps the list; the other parts are unchanged |
| Step1Selection.SlotsFetchStarted | components/booking/Step1Selection/index.tsx:132 | slots loading on, their error cleared, everything else unchanged |
| Step1Selection.SlotsFetchFinished | components/booking/Step1Selection/index.tsx:134-154 | success stores the rows (null as []), failure sets the fixed message and keeps the list; the other parts are unchanged |
| Step1Selection.ProfessionalIdOrNull | components/booking/Step1Selection/index.tsx:229 | the id is sent iff a professional with a non-empty id is chosen; otherwise null |
| Step1Selection.SlotsRequest | components/booking/Step1Selection/index.tsx:204-207 | a slot request exists iff a service and a truthy date are set, and carries their ids and the date |
| Step1Selection.ProfessionalsFetchIssued | components/booking/Step1Selection/index.tsx:218-222 | professionals are fetched, for the service's id, iff the service changed and is set |
| Step1Selection.SlotsFetchIssued | components/booking/Step1Selection/index.tsx:225-233 | slots are fetched iff service, professional or date changed and service and a truthy date are set |
| Step1Selection.CompletionFired | components/booking/Step1Selection/index.tsx:236-245 | completion fires, with the four selections, iff a selection changed and service, truthy date and slot are set |
| Step1Selection.StartIssued | components/booking/Step1Selection/index.tsx:213-233 | each issued fetch starts: its collection's loading goes on and its error is cleared; nothing else changes |
| Step1Selection.MountedIsInitial | components/booking/Step1Selection/index.tsx:45-215 | the mount's start of the services fetch leaves the initial state as it is, which shows the spinner |
| Step1Selection.StepKeepsConsistent | components/booking/Step1Selection/index.tsx:161-245 | an enabled event keeps every downstream selection backed by its upstream ones |
| Step1Selection.ReachableStatesConsistent | components/booking/Step1Selection/index.tsx:161-245 | every state reachable through enabled events is consistent |
| Step1Selection.ReadyIffSlotChosen | components/booking/Step1Selection/index.tsx:236-245 | from the mounted page, the completion condition holds exactly when a slot is set |
| Step1Selection.CompletionOnlyOnSlotChoice | components/booking/Step1Selection/index.tsx:161-245 | completion fires only in reaction to a slot choice |
| Step1Selection.SlotChoiceCompletes | components/booking/Step1Selection/index.tsx:197-245 | choosing a new slot always fires completion with the current service, professional (possibly null) and date |
| Step1Selection.ProfessionalsFetchedOnServiceChange | components/booking/Step1Selection/index.tsx:161-222 | professionals are fetched iff a service different from the current one is chosen, for that service's id |
| Step1Selection.SlotsRequestedOnlyWhenReady | components/booking/Step1Selection/index.tsx:204-233 | slots are requested, by the effect or the retry, only with a service and a truthy date, with the professional's id or null |
| Step1Selection.RetryRepeatsRequest | components/booking/Step1Selection/index.tsx:204-233 | as long as no selection changes, the retry sends the very request the effect sent |
| Step1Selection.RunWithoutSelectionsKeepsSelections | components/booking/Step1Selection/index.tsx:66-208 | responses and retries never change a selection |
| Step1Selection.LastSlotsResponseWins | components/booking/Step1Selection/index.tsx:142-146 | whichever slot response is applied last is what is listed |
| Step1Selection.ReselectingNoPreferenceEmptiesSlots | components/booking/Step1Selection/index.tsx:177-233 | as written, re-choosing "sin preferencia" empties the slot list with no refetch |
| Step1Selection.ReselectingServiceEmptiesProfessionals | components/booking/Step1Selection/index.tsx:161-222 | as written, re-choosing the chosen service empties the professional list with no refetch |
| Step1Selection.CorrectedStepAgrees | components/booking/Step1Selection/index.tsx:161-245 | the correction differs from the code only on a re-selection, where it leaves the page as it is and reacts with nothing; it keeps every state consistent |
| Step1Selection.HandlersRefetchClearedLists | components/booking/Step1Selection/index.tsx:161-233 | with the corrected handlers every discarded list that is still needed is fetched again |
| Step1Selection.SelectionStore.constructor | components/booking/Step1Selection/index.tsx:45-215 | the store starts in the mounted state |
| Step1Selection.SelectionStore.HandleServiceSelect | components/booking/Step1Selection/index.tsx:161-175 | the record becomes `ServiceChosen` of the old one |
| Step1Selection.SelectionStore.HandleProfessionalSelect | components/booking/Step1Selection/index.tsx:177-185 | the record becomes `ProfessionalChosen` of the old one |
| Step1Selection.SelectionStore.HandleDateSelect | components/booking/Step1Selection/index.tsx:187-195 | the record becomes `DateChosen` of the old one |
| Step1Selection.SelectionStore.HandleTimeSlotSelect | components/booking/Step1Selection/index.tsx:197-202 | the record becomes `SlotChosen` of the old one |
| Step1Selection.SelectionStore.StartServicesFetch | components/booking/Step1Selection/index.tsx:68 | the record becomes `ServicesFetchStarted` of the old one |
| Step1Selection.SelectionStore.FinishServicesFetch | components/booking/Step1Selection/index.tsx:70-90 | the record becomes `ServicesFetchFinished` of the old one |
| Step1Selection.SelectionStore.StartProfessionalsFetch | components/booking/Step1Selection/index.tsx:95-99 | the record becomes `ProfessionalsFetchStarted` of the old one |
| Step1Selection.SelectionStore.FinishProfessionalsFetch | components/booking/Step1Selection/index.tsx:101-126 | the record becomes `ProfessionalsFetchFinished` of the old one |
| Step1Selection.SelectionStore.StartSlotsFetch | components/booking/Step1Selection/index.tsx:132 | the record becomes `SlotsFetchStarted` of the old one |
| Step1Selection.SelectionStore.FinishSlotsFetch | components/booking/Step1Selection/index.tsx:134-154 | the record becomes `SlotsFetchFinished` of the old one |
| Step1Selection.SelectionStore.HandleRetrySlots | components/booking/Step1Selection/index.tsx:204-208 | the retry sends the state's slot request, and starts it, only with a service and a truthy date |
| Step1Selection.SelectionStore.Dispatch | components/booking/Step1Selection/index.tsx:161-245 | one event and the effects' reaction, with a re-selection skipped: the new state is `CorrectedStep`, the reaction is `CorrectedEffects`, and consistency is kept |
| WizardContainer.Initial | components/booking/WizardContainer.tsx:12-13 | the wizard starts on step 1 with no data |
| WizardContainer.ServiceSelected | components/booking/WizardContainer.tsx:16-22 | the service is stored and step 2 shown; professional, date and slot are kept |
| WizardContainer.ProfessionalSelected | components/booking/WizardContainer.tsx:25-31 | the professional choice (null for "sin preferencia") is stored as present and step 3 shown |
| WizardContainer.DateSelected | components/booking/WizardContainer.tsx:34-40 | the date is stored and step 4 shown |
| WizardContainer.TimeSelected | components/booking/WizardContainer.tsx:43-53 | a copy of the slot's two ends is stored and step 5 shown |
| WizardContainer.Back | components/booking/WizardContainer.tsx:56-60 | one step back above step 1, a no-op on step 1; the data is never changed |
| WizardContainer.ProfessionalProp | components/booking/WizardContainer.tsx:85-94 | `professional \|\| null` passes a professional only when one was chosen; absent and "sin preferencia" both become null |
| WizardContainer.ContentOf | components/booking/WizardContainer.tsx:70-116 | step 1 always shows its page, steps 2 and 3 only with a service, step 4 only with a service and a truthy date, step 5 the placeholder; each page gets the stored props |
| WizardContainer.ApplyKeepsComplete | components/booking/WizardContainer.tsx:16-60 | an enabled event keeps every page backed by the data the earlier pages collect |
| WizardContainer.ReachableStatesComplete | components/booking/WizardContainer.tsx:12-60 | every reachable wizard state is complete |
| WizardContainer.CompleteNeverBlank | components/booking/WizardContainer.tsx:70-116 | in a complete state the content area always shows a page |
| WizardContainer.ReachablePagesShowContent | components/booking/WizardContainer.tsx:12-116 | from the start, every reachable step shows its page, step 6 is never reached, and step 4 always gets a non-empty date |
| WizardContainer.BackThenRedoRestores | components/booking/WizardContainer.tsx:16-60 | going back and redoing the previous page with the stored value is allowed and restores the very same state |
| WizardContainer.RedoingServiceKeepsLaterData | components/booking/WizardContainer.tsx:16-60 | going back from step 5 to step 1 and choosing another service is allowed and keeps the old professional, date and slot (no cascade reset) |
| WizardContainer.Wizard.constructor | components/booking/WizardContainer.tsx:12-13 | the component starts in the initial state |
| WizardContainer.Wizard.HandleServiceSelect | components/booking/WizardContainer.tsx:16-22 | the state becomes `ServiceSelected` of the old one |
| WizardContainer.Wizard.HandleProfessionalSelect | components/booking/WizardContainer.tsx:25-31 | the state becomes `ProfessionalSelected` of the old one |
| WizardContainer.Wizard.HandleDateSelect | components/booking/WizardContainer.tsx:34-40 | the state becomes `DateSelected` of the old one |
| WizardContainer.Wizard.HandleTimeSelect | components/booking/WizardContainer.tsx:43-53 | the state becomes `TimeSelected` of the old one |
| WizardContainer.Wizard.HandleBack | components/booking/WizardContainer.tsx:56-60 | the state becomes `Back` of the old one |
| WizardContainer.Wizard.Dispatch | components/booking/WizardContainer.tsx:16-60 | one event applied; completeness is kept |
| Step1Service.Initial | components/booking/Step1Service.tsx:12-14 | an empty list, loading, no error |
| Step1Service.Started | components/booking/Step1Service.tsx:22-23 | loading on, error cleared, the list kept |
| Step1Service.Finished | components/booking/Step1Service.tsx:25-39 | success stores the rows (null as []), failure sets the fixed message and keeps the list; loading always ends |
| Step1Service.LocalTotalDuration | components/booking/Step1Service.tsx:42-44 | the page's own duration agrees with `getTotalDuration` |
| Step1Service.Render | components/booking/Step1Service.tsx:46-121 | loading, then the error with a retry, then the empty notice, then one card per service, with its total duration, whose click hands on that service |
| Step1Service.FetchDecidesView | components/booking/Step1Service.tsx:20-80 | after one fetch the page shows the error exactly on failure, otherwise the fetched services in order or the empty notice; the page invariant is kept |
| Step1Service.ServicePage.constructor | components/booking/Step1Service.tsx:12-23 | the initial state, which the mount's fetch start leaves unchanged |
| Step1Service.ServicePage.StartFetch | components/booking/Step1Service.tsx:22-23 | the state becomes `Started` of the old one |
| Step1Service.ServicePage.FinishFetch | components/booking/Step1Service.tsx:25-39 | the state becomes `Finished` of the old one; the invariant is kept |
| Step1Service.ServicePage.ClickCard | components/booking/Step1Service.tsx:90-93 | a card's click hands on exactly the service it shows, whose duration is the one displayed |
| Step2Professional.Initial | components/booking/Step2Professional.tsx:18-20 | an empty list, loading, no error |
| Step2Professional.Extract | components/booking/Step2Professional.tsx:49-50 | null data gives []; otherwise exactly the present joined professionals |
| Step2Professional.Started | components/booking/Step2Professional.tsx:28-29 | loading on, error cleared, the list kept |
| Step2Professional.Finished | components/booking/Step2Professional.tsx:31-58 | success stores the extracted list, failure sets the fixed message and keeps the list; loading always ends |
| Step2Professional.ServiceReceived | components/booking/Step2Professional.tsx:22-24 | the fetch restarts iff the service id changes |
| Step2Professional.Render | components/booking/Step2Professional.tsx:62-184 | loading, then the error with a retry, else "sin preferencia" (null) followed by one card per professional, with the empty notice iff the list is empty |
| Step2Professional.NoPreferenceAlwaysOffered | components/booking/Step2Professional.tsx:121-184 | "sin preferencia" is offered even with an empty list, unlike the single-page selector |
| Step2Professional.FetchDecidesView | components/booking/Step2Professional.tsx:26-141 | after one fetch the page shows the error exactly on failure, otherwise "sin preferencia" and exactly the present joined professionals |
| Step2Professional.ProfessionalPage.constructor | components/booking/Step2Professional.tsx:18-29 | the initial state for the service, which the mount's fetch start leaves unchanged |
| Step2Professional.ProfessionalPage.StartFetch | components/booking/Step2Professional.tsx:28-29 | the state becomes `Started` of the old one |
| Step2Professional.ProfessionalPage.FinishFetch | components/booking/Step2Professional.tsx:31-58 | the state becomes `Finished` of the old one |
| Step2Professional.ProfessionalPage.ReceiveService | components/booking/Step2Professional.tsx:22-24 | the state becomes `ServiceReceived` of the old one |
| Step2Professional.ProfessionalPage.Click | components/booking/Step2Professional.tsx:123-146 | "sin preferencia" hands on null; a card hands on its professional |
| Step3Date.FormatDate | components/booking/Step3Date.tsx:47-56 | an empty date formats as "" |
| Step3Date.ProfessionalCaption | components/booking/Step3Date.tsx:81 | the professional's name, or "Sin preferencia" for null |
| Step3Date.Render | components/booking/Step3Date.tsx:22-129 | the input's bounds are the helpers' min and max dates; the summary shows iff a date is chosen; the button is disabled iff none is, with the matching caption |
| Step3Date.DatePage.constructor | components/booking/Step3Date.tsx:19 | the chosen date starts as "" |
| Step3Date.DatePage.HandleDateChange | components/booking/Step3Date.tsx:35-38 | the input's value becomes the chosen date |
| Step3Date.DatePage.HandleContinue | components/booking/Step3Date.tsx:40-44 | the date is handed on exactly when it is non-empty, exactly when the button is enabled |
| Step3Date.ClearedInputHandsOnNothing | components/booking/Step3Date.tsx:40-121 | with the input cleared the button is disabled, no summary shows and the date formats as "" |
| Step4Time.Request | components/booking/Step4Time.tsx:36-43 | the request carries the professional's id (none for "sin preferencia"), the service id and the date |
| Step4Time.ProfessionalIdAgreesWithSinglePage | components/booking/Step4Time.tsx:39 | the page sends the same professional id as the single-page flow except for an empty id |
| Step4Time.Initial | components/booking/Step4Time.tsx:22-25 | no slots, loading, no error, nothing picked |
| Step4Time.Started | components/booking/Step4Time.tsx:33-34 | loading on, error cleared, slots and pick kept |
| Step4Time.Finished | components/booking/Step4Time.tsx:45-53 | success stores the rows (null as []), failure sets the fixed message and keeps the slots; loading ends; the pick is kept |
| Step4Time.SlotPicked | components/booking/Step4Time.tsx:57-59 | only the pick changes |
| Step4Time.SelectionIsHighlighted | components/booking/Step4Time.tsx:174 | the picked slot is always highlighted, and nothing is without a pick |
| Step4Time.HighlightIgnoresEndTime | components/booking/Step4Time.tsx:174 | every slot that starts with the picked one but ends apart from it is highlighted too, while the single-page grid would not press it |
| Step4Time.DisplayedDuration | components/booking/Step4Time.tsx:197 | the displayed duration is `getTotalDuration` |
| Step4Time.Render | components/booking/Step4Time.tsx:88-246 | loading, then the error with a retry, then count, buttons highlighted by start, the pick's summary with the total duration and a continue button disabled iff nothing is picked; else the "no slots" notice |
| Step4Time.ApplyKeepsPickListed | components/booking/Step4Time.tsx:27-114 | an enabled event keeps the pick one of the listed slots in a shown grid |
| Step4Time.ContinueHandsOnListedSlot | components/booking/Step4Time.tsx:22-65 | from mounting on, the pick that "Continuar" hands on is always a slot of the grid on screen |
| Step4Time.TimePage.constructor | components/booking/Step4Time.tsx:15-29 | the initial state with the props, which the mount's fetch start leaves unchanged |
| Step4Time.TimePage.StartFetch | components/booking/Step4Time.tsx:31-114 | the request is built from the props alone, so the mount and every retry send the same one; the state becomes `Started` |
| Step4Time.TimePage.FinishFetch | components/booking/Step4Time.tsx:45-53 | the state becomes `Finished` of the old one |
| Step4Time.TimePage.HandleSlotSelect | components/booking/Step4Time.tsx:57-59 | the state becomes `SlotPicked` of the old one |
| Step4Time.TimePage.HandleContinue | components/booking/Step4Time.tsx:61-206 | the pick is handed on only when there is one, which is exactly when the button is enabled |

## Left out

- Supabase queries and the `get_available_slots` procedure are network I/O. Each fetch's outcome is an input.
- Async timing is left out beyond an arbitrary order of arrival. There is no generation counter or cancellation, because the code has none.
- React's scheduler, batching and re-rendering are left out. Each effect runs once after each modelled transition.
- Effect dependencies are compared by value, but React compares them by reference. In the code, a service with equal fields but a different object identity (after a services refetch) re-runs the professionals effect; in the model it does not.
- Step1Selection.CompletionFired: a new `onStepComplete` prop from the parent, which re-runs the completion effect in the code, is not modelled. The parent is not part of this model.
- `formatTime`/`formatDate` are left out because they depend on locale tables and time zones. Only `formatDate("")` is modelled, and the long rendering is a parameter.
- `new Date()` is left out. Today is a calendar-date parameter. The code moves months in local time but prints the UTC date, and that mismatch near midnight is not modelled.
- BookingHelpers.MaxBookingDateAfterMin: proved for years 0..9998 only. The six-digit year form `toISOString` uses outside 0..9999 is modelled (`IsoYear`), but its ordering is not proved.
- Step3Date's own `getMinDate`/`getMaxDate` (components/booking/Step3Date.tsx:22-33) compute the same text as `getMinBookingDate`/`getMaxBookingDate`. The model uses the helper functions for both.
- `Booking` is modelled only for its status union. Client and booking creation are not part of the flows modelled.
- Numbers are unbounded integers. Fractional minutes and NaN are not modelled.
- Rendering details are left out: CSS classes, SVG, ARIA texts and the avatar initial.
- Navbar, the app layout, the shared components and DateSelector are presentational and are not part of this model.
- Step1Selection.SelectionStore.Dispatch follows the corrected handlers (see Findings), so it skips a re-selection that the code would run. The four `Handle*Select` methods keep the code's updaters as written, and the page machine's lemmas are about the code as written.

## Findings

| source | as written | input that shows it | evidently intended | confidence | as-written member | corrected member |
|---|---|---|---|---|---|---|
| components/booking/Step1Selection/index.tsx:177-185 | choosing a professional always clears `availableSlots`, but the slots effect (225-233) re-runs only when service, professional or date change | service and date chosen, slots listed, professional null; the visitor clicks "Sin preferencia" | the grid keeps, or refetches, the slots of an unchanged selection | not executed | Step1Selection.ReselectingNoPreferenceEmptiesSlots | Step1Selection.HandlersRefetchClearedLists |
| components/booking/Step1Selection/index.tsx:161-175 | choosing a service always clears `availableProfessionals`, but the professionals effect (218-222) re-runs only when the service changes | a service chosen and its professionals listed; the visitor clicks the same service card again | the professional list stays, or is refetched | not executed | Step1Selection.ReselectingServiceEmptiesProfessionals | Step1Selection.HandlersRefetchClearedLists |
