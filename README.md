# SchedulePro booking domain in Dafny

A model of the deterministic core of SchedulePro, a Next.js scheduling app
for independent professionals, with proofs of what its code promises. The
professional publishes services, a weekly timetable and blocked times, and
manages bookings and billing. A client books through a four-step wizard:
service, date and time, contact details, then payment. The API routes
validate requests in a fixed order and answer with canned data.

Each source file in the core has a module. Component state that handlers
update in place is a `class` whose methods carry `modifies` clauses. Pure
helpers are functions, and lemmas state their properties. Shared modules:

- `Wrappers`: `Option`.
- `Text`: digits, trimming, `split`/`join`, JavaScript `parseInt`, decimal numerals, UTF-16 length.
- `Seqs`: filter, subsequence, update-where.
- `Clock`: the 12-hour formatter that three components write out identically, and the 48-entry half-hour table.
- `CardInput`: card-number grouping and the CVC sanitiser.
- `ApiTypes`: the records of `lib/api-types.ts`, the response shape and JavaScript truthiness.
- `Pagination`: the GET pagination clamp.

Conventions:

- Money is integer cents. Plan prices stay in whole dollars, because the yearly price floors whole dollars.
- Instants are epoch milliseconds, and dashboard dates are day numbers, with day 0 = Thursday 1 January 1970.
- "Now", generated ids and today's date are parameters.
- `undefined` is `None`, and `NaN` from `parseInt` is `None`.

## Model

| member | source | states |
|---|---|---|
| BookingFlow.Merge | components/booking/booking-flow.tsx:105 | `{...prev, ...data}` on the booking record, field by field through `Pick`; its laws are `MergeLaws` |
| BookingFlow.Pick | components/booking/booking-flow.tsx:105 | a field present in the patch wins; an absent one keeps the previous value |
| BookingFlow.MergeLaws | components/booking/booking-flow.tsx:105 | merging nothing changes nothing, merging the same patch twice is merging it once, and merges compose associatively |
| BookingFlow.MergeKeepsGuardOpen | components/booking/booking-flow.tsx:234-240 | merging a patch (without an empty time) never closes an open "can go next" guard |
| BookingFlow.EmptyTimeClosesStepTwo | components/booking/booking-flow.tsx:236 | an empty time string is falsy, so step 2 cannot advance |
| BookingFlow.NextStep | components/booking/booking-flow.tsx:106-108 | the step after `handleNext`; `NextsReachStep` and `ReplayStaysInRange` state its effect |
| BookingFlow.PrevStep | components/booking/booking-flow.tsx:112-114 | the step after `handleBack`; `BacksKeepData` and `ReplayStaysInRange` state its effect |
| BookingFlow.CanGoBack | components/booking/booking-flow.tsx:234 | `canGoBack={currentStep > 1}`; `BackOfferedWhenItMoves` states its meaning |
| BookingFlow.BackOfferedWhenItMoves | components/booking/booking-flow.tsx:111-115 | the back button is enabled exactly when going back moves the wizard, which happens on every step but the first, and an advance then returns to the same step |
| BookingFlow.CanGoNext | components/booking/booking-flow.tsx:234-240 | the `canGoNext` guard read as a boolean; `MergeKeepsGuardOpen` and `EmptyTimeClosesStepTwo` state how merging affects it |
| BookingFlow.ReplayStaysInRange | components/booking/booking-flow.tsx:104-115 | any sequence of next/back moves from a step in 1..4 stays in 1..4 |
| BookingFlow.BacksKeepData | components/booking/booking-flow.tsx:111-115 | n backs lower the step by n, stopping at 1, and leave the booking record unchanged |
| BookingFlow.NextsReachStep | components/booking/booking-flow.tsx:104-109 | n nexts raise the step by n, stopping at 4 |
| BookingFlow.BookingIdFor | components/booking/booking-flow.tsx:119 | the id is "BK" followed by digits whose value is the timestamp modulo 10^6, eight characters once the timestamp has six digits |
| BookingFlow.LastSixDigits | components/booking/booking-flow.tsx:119 | the last six characters of a timestamp's numeral denote the timestamp modulo 10^6 |
| BookingFlow.Flow.Shown | components/booking/booking-flow.tsx:132-134 | the success view is shown exactly when the booking is complete |
| BookingFlow.Flow.constructor | components/booking/booking-flow.tsx:89-92 | step 1, an empty booking record, no id, not complete |
| BookingFlow.Flow.HandleNext | components/booking/booking-flow.tsx:104-109 | the record becomes the merge of the old record and the argument; the step rises by one below 4 and stays at 4 |
| BookingFlow.Flow.HandleBack | components/booking/booking-flow.tsx:111-115 | the step falls by one above 1; the record is unchanged |
| BookingFlow.Flow.HandleBookingComplete | components/booking/booking-flow.tsx:117-121 | sets the "BK" id and completion, so the success view shows that id; step and record unchanged |
| BookingManagement.SetStatus | components/dashboard/booking-management.tsx:87-91 | the status update by id; `SetStatusKeepsRest`, `SetStatusUnknownId` and `SetStatusIdempotent` state its meaning |
| BookingManagement.SetStatusUnknownId | components/dashboard/booking-management.tsx:87-91 | a status change for an id no booking has leaves the list unchanged |
| BookingManagement.SetStatusKeepsRest | components/dashboard/booking-management.tsx:87-91 | only the status of bookings with the id changes; every other field and every other booking is unchanged |
| BookingManagement.SetStatusIdempotent | components/dashboard/booking-management.tsx:87-91 | applying the same status change twice is applying it once |
| BookingManagement.FilterBookings | components/dashboard/booking-management.tsx:116-119 | `filterBookings`; its meaning is `FilterBookingsMeaning` |
| BookingManagement.FilterBookingsMeaning | components/dashboard/booking-management.tsx:116-119 | no filter or "all" gives the whole list; a status gives exactly the bookings with it, in their order |
| BookingManagement.FilterUnknownStatus | components/dashboard/booking-management.tsx:116-119 | a status name no booking status has gives the empty list |
| BookingManagement.CountStatus | components/dashboard/booking-management.tsx:121-128 | a status count never exceeds the list length |
| BookingManagement.CountsPartition | components/dashboard/booking-management.tsx:121-128 | the four status counts add up to the list length |
| BookingManagement.FilterSizeIsCount | components/dashboard/booking-management.tsx:124-126 | a tab's filtered length is that status's count |
| BookingManagement.GetTabCounts | components/dashboard/booking-management.tsx:121-128 | each count is the size of its filter, "all" is the length, and pending + confirmed + completed is at most "all" |
| BookingManagement.Offered | components/dashboard/booking-management.tsx:171-194 | the status changes the dropdown offers for each status; `OfferedMovesForward` and `MenuHistoryShort` state what they allow |
| BookingManagement.OfferedMovesForward | components/dashboard/booking-management.tsx:171-194 | every offered change moves the lifecycle forward, completed and cancelled (and only they) offer none, and "pending" is never offered |
| BookingManagement.MenuHistoryShort | components/dashboard/booking-management.tsx:171-194 | through the menu a booking changes status at most twice (three statuses in all), each later than the last |
| BookingManagement.MenuHistoryClimbs | components/dashboard/booking-management.tsx:171-194 | each menu step climbs at least one stage |
| BookingManagement.Board.constructor | components/dashboard/booking-management.tsx:84-85 | the given bookings (standing for `mockBookings`) and the "all" tab |
| BookingManagement.Board.HandleStatusChange | components/dashboard/booking-management.tsx:87-91 | the list becomes the status update by id of the old list; the tab is unchanged |
| BookingManagement.Board.ChooseMenuItem | components/dashboard/booking-management.tsx:171-194 | choosing an offered item updates that booking and moves its status to a later stage |
| Clock.FormatTime | components/dashboard/booking-management.tsx:108-114 | `formatTime`: split at ":", `parseInt` of the hour, 12-hour hour, minutes and AM/PM; its meaning on "HH:MM" is `FormatTimeOfClockTime` |
| Clock.FormatTimeOfClockTime | components/dashboard/booking-management.tsx:108-114 | on "HH:MM" the label is the 12-hour hour, the minutes verbatim and AM/PM; components/booking/datetime-selection.tsx:56-62 writes the same formatter out again |
| Clock.DisplayHourInverse | components/dashboard/booking-management.tsx:111-112 | on hours 0..23 the shown hour is in 1..12, 0 → 12 AM, 12 → 12 PM, 13..23 → h−12 PM, and the hour comes back from the shown hour and the meridiem |
| Clock.ClockTextMinute | components/timetable/availability-settings.tsx:39 | a "HH:MM" value denotes the minute of the day 60·HH + MM |
| Clock.TimeOptionMinute | components/timetable/availability-settings.tsx:36-44 | the i-th table entry's value is minute 30·i of the day |
| Clock.TimeOptions | components/timetable/availability-settings.tsx:36-44 | the `TIME_OPTIONS` table; `TimeOptionMinute`, `TimeOptionsAscending` and `TableAgreesWithFormatTime` state its entries |
| Clock.TimeOptionsAscending | components/timetable/availability-settings.tsx:36-44 | the table has 48 entries on half-hours in strictly ascending order |
| Clock.LabelIn | components/timetable/availability-settings.tsx:117-120 | the lookup finds nothing exactly when no entry has that value |
| Clock.LabelInFirst | components/timetable/availability-settings.tsx:118 | `find` returns the label of the first entry with the value |
| Clock.TableFormatTime | components/timetable/availability-settings.tsx:117-120 | the table lookup `formatTime` of the timetable screens; its meaning is `TableFormatTimeOfOption` and `TableFormatTimeOther` |
| Clock.TableFormatTimeOfOption | components/timetable/availability-settings.tsx:117-120 | a table value formats as its label; components/timetable/blocked-times.tsx:133-136 repeats the same table lookup |
| Clock.TableFormatTimeOther | components/timetable/availability-settings.tsx:117-120 | a value not in the table formats as itself |
| Clock.TableAgreesWithFormatTime | components/timetable/availability-settings.tsx:40-42 | every table label is what the split-and-parse formatter prints for its value |
| Availability.DaysListEveryDay | components/timetable/availability-settings.tsx:26-34 | the day list names each of the seven days |
| Availability.InitialWeek | components/timetable/availability-settings.tsx:47-55 | the initial timetable has an entry for every day |
| Availability.InitialWeekShape | components/timetable/availability-settings.tsx:47-55 | Monday to Friday are open 09:00–17:00 with one slot; Saturday and Sunday are closed with no slots |
| Availability.AddSlot | components/timetable/availability-settings.tsx:71-79 | `addTimeSlot` on one day: the default 09:00–17:00 slot appended; `Settings.AddTimeSlot` states it on the timetable |
| Availability.ToggleDay | components/timetable/availability-settings.tsx:60-69 | the switch flips, and the slots become one 09:00–17:00 slot when the day opens and none when it closes |
| Availability.DropIndex | components/timetable/availability-settings.tsx:81-89 | an index in range removes exactly that slot, keeping the others in order; any other index changes nothing |
| Availability.UpdateIndex | components/timetable/availability-settings.tsx:91-99 | the same number of slots; the slot at the index gets the new field value, every other slot is unchanged |
| Availability.UpdateIndexOnlyThatField | components/timetable/availability-settings.tsx:91-99 | an update writes only the named field of the slot at the index and keeps its other field |
| Availability.CopiedWeek | components/timetable/availability-settings.tsx:101-115 | after "copy to all days" every day equals the source day |
| Availability.CopyIdempotent | components/timetable/availability-settings.tsx:101-115 | the source day is kept, and copying again from any day changes nothing |
| Availability.Apply | components/timetable/availability-settings.tsx:60-115 | every handler keeps an entry for each of the seven days |
| Availability.Offered | components/timetable/availability-settings.tsx:187-250 | which controls the screen shows for a day; `OfferedEditKeepsConsistent` proves they keep the timetable consistent |
| Availability.OfferedEditKeepsConsistent | components/timetable/availability-settings.tsx:187-250 | each control the screen offers keeps "open" equivalent to "has slots" on every day |
| Availability.UngatedAddBreaksConsistency | components/timetable/availability-settings.tsx:71-79 | without the screen's gating, adding a slot to a closed day leaves a closed day with a slot |
| Availability.ApplyAll | components/timetable/availability-settings.tsx:60-115 | any run of handler calls keeps an entry for each day |
| Availability.OfferedRunKeepsConsistent | components/timetable/availability-settings.tsx:187-250 | any run of offered controls from a consistent timetable leaves it consistent |
| Availability.Settings.constructor | components/timetable/availability-settings.tsx:47-58 | the initial timetable, which is consistent, a 15-minute buffer and the "America/New_York" time zone |
| Availability.Settings.ToggleDayAvailability | components/timetable/availability-settings.tsx:60-69 | only the toggled day changes, as `ToggleDay` says |
| Availability.Settings.AddTimeSlot | components/timetable/availability-settings.tsx:71-79 | the day's slots grow by one 09:00–17:00 slot at the end; the earlier slots and the other days are unchanged |
| Availability.Settings.RemoveTimeSlot | components/timetable/availability-settings.tsx:81-89 | only that day's slot list changes, losing the slot at the index |
| Availability.Settings.UpdateTimeSlot | components/timetable/availability-settings.tsx:91-99 | only that day's slot at the index changes, in the named field |
| Availability.Settings.CopyToAllDays | components/timetable/availability-settings.tsx:101-115 | the timetable becomes the source day copied to every day |
| BlockedTimes.DefaultForm | components/timetable/blocked-times.tsx:71-79 | the blank form; `Editor.ResetForm` and `Editor.constructor` use it |
| BlockedTimes.CanSave | components/timetable/blocked-times.tsx:82 | the save guard on title, date and times; `FormRoundTrip` and `SaveDoesNotOrderTimes` state what it accepts |
| BlockedTimes.SaveId | components/timetable/blocked-times.tsx:85 | an edited block keeps its non-empty id; a new block (or one with an empty id) gets the decimal numeral of "now" |
| BlockedTimes.ToBlock | components/timetable/blocked-times.tsx:84-94 | the `blockData` record built from the form; `FormRoundTrip` and `SaveShapes` state it |
| BlockedTimes.FromBlock | components/timetable/blocked-times.tsx:105-109 | `setFormData(block)`; `FormRoundTrip` states that saving it gives the block back |
| BlockedTimes.FormRoundTrip | components/timetable/blocked-times.tsx:81-94 | loading a block into the form and saving it gives back the same block, and the form passes the save guard |
| BlockedTimes.SaveDoesNotOrderTimes | components/timetable/blocked-times.tsx:82 | the save guard accepts a block that ends before it starts (17:00 to 09:00) |
| BlockedTimes.ReplaceById | components/timetable/blocked-times.tsx:96-97 | the map by id on save of an edit; `SaveShapes` and `EditThenSaveChangesNothing` state its effect |
| BlockedTimes.DeleteById | components/timetable/blocked-times.tsx:111-113 | the filter by id; its meaning is `DeleteByIdMeaning` |
| BlockedTimes.DeleteByIdMeaning | components/timetable/blocked-times.tsx:111-113 | deletion keeps exactly the blocks with a different id, in their order |
| BlockedTimes.EditThenSaveChangesNothing | components/timetable/blocked-times.tsx:96-97 | editing a block and saving without changes leaves the list unchanged |
| BlockedTimes.SaveShapes | components/timetable/blocked-times.tsx:84-101 | "recurring" is set only by an explicit true; a create appends one block with the new id; an update keeps the length and the ids |
| BlockedTimes.Editor.constructor | components/timetable/blocked-times.tsx:46-79 | the given blocks, the form closed, nothing being edited, the default form for today |
| BlockedTimes.Editor.OpenForm | components/timetable/blocked-times.tsx:145 | the form opens |
| BlockedTimes.Editor.SetTitle | components/timetable/blocked-times.tsx:174 | only the title changes |
| BlockedTimes.Editor.SetType | components/timetable/blocked-times.tsx:183 | only the type changes |
| BlockedTimes.Editor.SetDescription | components/timetable/blocked-times.tsx:204 | only the description changes |
| BlockedTimes.Editor.SelectDate | components/timetable/blocked-times.tsx:224 | the date becomes the picked date, or "now" when the pick is cleared |
| BlockedTimes.Editor.SetStartTime | components/timetable/blocked-times.tsx:235 | only the start time changes |
| BlockedTimes.Editor.SetEndTime | components/timetable/blocked-times.tsx:254 | only the end time changes |
| BlockedTimes.Editor.ResetForm | components/timetable/blocked-times.tsx:115-127 | the default form, nothing being edited, the form closed |
| BlockedTimes.Editor.HandleSaveBlock | components/timetable/blocked-times.tsx:81-103 | a form missing a title, date or time changes nothing; otherwise the block replaces the edited one by id or is appended, and the form resets |
| BlockedTimes.Editor.HandleEditBlock | components/timetable/blocked-times.tsx:105-109 | the block is being edited, loaded into the form, and the form is open |
| BlockedTimes.Editor.HandleDeleteBlock | components/timetable/blocked-times.tsx:111-113 | the list loses exactly the blocks with that id |
| ServiceForm.Defaults | components/services/service-form.tsx:34-42 | the `||` and `??` defaults before the spread; `InitialFormBlank` states them |
| ServiceForm.Overlay | components/services/service-form.tsx:43 | the trailing `...service` spread; `InitialFormIsService` states that every service field wins |
| ServiceForm.InitialForm | components/services/service-form.tsx:34-44 | the initial `formData`; `InitialFormBlank` and `InitialFormIsService` state it for the two cases |
| ServiceForm.InitialFormBlank | components/services/service-form.tsx:34-44 | without a service: empty name and description, price 0, 30 minutes, "consultation", active, no preparation, 30 days ahead |
| ServiceForm.InitialFormIsService | components/services/service-form.tsx:34-44 | with a service the spread makes the form exactly that service, even a zero duration the defaults would replace |
| ServiceForm.Current | components/services/service-form.tsx:51-53 | reading a field gives a well-typed change of that field |
| ServiceForm.ChangeTouchesOnlyItsField | components/services/service-form.tsx:51-53 | a change sets its field, leaves every other field, the id and the booking count unchanged, and is undone by writing back the old value |
| ServiceForm.ApplyChange | components/services/service-form.tsx:51-53 | `{...prev, [field]: value}`; `ChangeTouchesOnlyItsField` states it |
| ServiceForm.Submittable | components/services/service-form.tsx:71-106 | the browser's constraint validation: a name (`required`) and a price not below `min="0"`; `InitialFormSubmittable` states it for the initial values |
| ServiceForm.InitialFormSubmittable | components/services/service-form.tsx:34-44 | a blank form cannot be submitted; an edited service can be exactly when it has a name and a non-negative price |
| ServiceForm.Form.constructor | components/services/service-form.tsx:34-44 | the form starts at the initial values |
| ServiceForm.Form.HandleInputChange | components/services/service-form.tsx:51-53 | the form becomes the old form with the change applied |
| ServiceForm.Form.HandleSubmit | components/services/service-form.tsx:46-49 | the form is passed on as it stands |
| ServiceForm.Form.Submit | components/services/service-form.tsx:71 | submitting the form: the data reaches `onSave` exactly when it passes the constraint validation, unchanged |
| ServiceList.WithId | components/services/service-list.tsx:84 | the saved service is the form's record under the edited id |
| ServiceList.NewService | components/services/service-list.tsx:88 | a new service is the form's record with the id "now" and no bookings |
| ServiceList.Duplicate | components/services/service-list.tsx:108-116 | the copy differs from the original only in its id ("now"), its name (" (Copy)" appended) and its zero bookings |
| ServiceList.ToggleActive | components/services/service-list.tsx:104-106 | the active-flag flip by id; `ToggleTwice` states it |
| ServiceList.ToggleTwice | components/services/service-list.tsx:104-106 | toggling flips exactly the services with the id, and toggling twice restores the list |
| ServiceList.DeleteService | components/services/service-list.tsx:100-102 | the filter by id; its meaning is `DeleteServiceMeaning` |
| ServiceList.DeleteServiceMeaning | components/services/service-list.tsx:100-102 | deletion keeps exactly the services with a different id, in their order |
| ServiceList.SaveEdited | components/services/service-list.tsx:80-85 | the map by the edited id on save; `SaveShapes` and `EditSaveRoundTrip` state its effect |
| ServiceList.EditSaveRoundTrip | components/services/service-list.tsx:80-85 | opening a service in the form and saving it unchanged leaves the list unchanged |
| ServiceList.SaveShapes | components/services/service-list.tsx:80-93 | an edit keeps the length, rewrites the services with the id from the form and keeps the others; a create appends one service with no bookings |
| ServiceList.Catalogue.constructor | components/services/service-list.tsx:76-78 | the given services, nothing being edited, the form closed |
| ServiceList.Catalogue.OpenForm | components/services/service-list.tsx:152 | the form opens |
| ServiceList.Catalogue.CancelForm | components/services/service-list.tsx:136-139 | the form closes and nothing is being edited |
| ServiceList.Catalogue.HandleSaveService | components/services/service-list.tsx:80-93 | an edit rewrites the services with the edited id; a create appends the new service; then the form closes |
| ServiceList.Catalogue.HandleEditService | components/services/service-list.tsx:95-98 | the service is being edited and the form is open |
| ServiceList.Catalogue.HandleDeleteService | components/services/service-list.tsx:100-102 | the list loses exactly the services with that id |
| ServiceList.Catalogue.HandleToggleActive | components/services/service-list.tsx:104-106 | the services with that id flip their active flag |
| ServiceList.Catalogue.HandleDuplicateService | components/services/service-list.tsx:108-116 | the copy is appended after the unchanged list |
| Payments.PlansShape | components/payment/payment-context.tsx:45-99 | three monthly plans, "basic" $15, "professional" $39 and "complete" $79, with distinct ids in ascending price, and only "professional" marked popular |
| Payments.NewSubscription | components/payment/payment-context.tsx:147-153 | an active subscription to the plan, not cancelling, with id "sub_" + now and a period ending thirty days from now |
| Payments.Cancel | components/payment/payment-context.tsx:159-170 | no subscription stays none; otherwise only the "cancel at period end" flag changes, to true |
| Payments.ChangePlan | components/payment/payment-context.tsx:193-204 | no subscription stays none; otherwise only the plan id changes |
| Payments.CancelLaws | components/payment/payment-context.tsx:159-204 | cancelling is idempotent, and cancelling commutes with a plan change |
| Payments.WithMethodId | components/payment/payment-context.tsx:176-180 | the stored card is the given card with the id "pm_" + now |
| Payments.RemoveMethod | components/payment/payment-context.tsx:185-191 | the filter by id; its meaning is `RemoveMethodMeaning` |
| Payments.RemoveMethodMeaning | components/payment/payment-context.tsx:185-191 | removal keeps exactly the cards with a different id, in their order |
| Payments.Store.constructor | components/payment/payment-context.tsx:102-104 | no subscription, no cards, loading |
| Payments.Store.FinishInitialLoad | components/payment/payment-context.tsx:106-140 | the mock "professional" subscription ending thirty days from now, the mock Visa card ending 4242, and loading off |
| Payments.Store.CreateSubscription | components/payment/payment-context.tsx:142-157 | the subscription becomes the new one, and loading ends |
| Payments.Store.CancelSubscription | components/payment/payment-context.tsx:159-170 | the subscription is cancelled at period end; loading ends, except that with no subscription the flag is left as it was |
| Payments.Store.AddPaymentMethod | components/payment/payment-context.tsx:172-183 | the card is appended under its new id, and loading ends |
| Payments.Store.RemovePaymentMethod | components/payment/payment-context.tsx:185-191 | the cards with the id are removed, and loading ends |
| Payments.Store.UpdateSubscription | components/payment/payment-context.tsx:193-204 | the plan id changes; loading ends, except that with no subscription the flag is left as it was |
| PricingPlans.ShownPrice | components/payment/pricing-plans.tsx:67 | the monthly price as listed; the yearly price is the largest whole dollar amount not above 80% of it |
| PricingPlans.YearlyDiscount | components/payment/pricing-plans.tsx:68 | no saving monthly; yearly, twelve times the difference between the two prices |
| PricingPlans.ShowsSaving | components/payment/pricing-plans.tsx:67-89 | when the "Save $x/year" line shows; `SavingShownForPaidPlans` characterises it |
| PricingPlans.SavingShownForPaidPlans | components/payment/pricing-plans.tsx:67-89 | the saving line appears on the yearly interval exactly for plans that cost something, never monthly, and the saving is at most a fifth of the yearly cost plus $12 |
| PricingPlans.PlanTableYearly | components/payment/pricing-plans.tsx:67-68 | yearly, the three plans cost $12, $31 and $63 a month and save $36, $96 and $192 a year |
| PricingPlans.ChooseDisabled | components/payment/pricing-plans.tsx:50-109 | `disabled={isCurrentPlan}`; `AtMostOneDisabled` states it |
| PricingPlans.AtMostOneDisabled | components/payment/pricing-plans.tsx:50-109 | at most one plan's button is disabled, and none when there is no current plan |
| DateTimeSelection.AvailableSlots | components/booking/datetime-selection.tsx:19-42 | `getAvailableSlots`; `AvailableMeaning`, `TodaySlots` and `OtherDaySlots` state its result |
| DateTimeSelection.Taken | components/booking/datetime-selection.tsx:36-41 | the slots taken today or on other days; `TodaySlots`, `OtherDaySlots` and `TakenBaseSlots` state them |
| DateTimeSelection.BaseSlotsAscending | components/booking/datetime-selection.tsx:20-33 | the twelve slots are "HH:MM" times in strictly ascending order |
| DateTimeSelection.TakenBaseSlots | components/booking/datetime-selection.tsx:35-41 | today's taken slots are the 3rd, 8th and 11th; other days' the 2nd and 10th |
| DateTimeSelection.TodaySlots | components/booking/datetime-selection.tsx:36-38 | today offers nine slots, listed, in the base order |
| DateTimeSelection.OtherDaySlots | components/booking/datetime-selection.tsx:41 | any other day offers ten slots, listed, in the base order |
| DateTimeSelection.AvailableMeaning | components/booking/datetime-selection.tsx:19-42 | a slot is offered exactly when it is a base slot not taken on that kind of day |
| DateTimeSelection.SlotsFor | components/booking/datetime-selection.tsx:48 | no slots before a date is chosen; `SlotsForMeaning` states it |
| DateTimeSelection.SlotsForMeaning | components/booking/datetime-selection.tsx:48 | a slot is shown exactly when a date is chosen and the slot is a base slot not taken that day |
| DateTimeSelection.IsDateDisabled | components/booking/datetime-selection.tsx:77 | the calendar `disabled` rule; `EnabledWindow` and `StartedDayIsDisabled` state it |
| DateTimeSelection.EnabledWindow | components/booking/datetime-selection.tsx:77 | the enabled dates form one interval, from now to sixty days ahead, both ends included |
| DateTimeSelection.StartedDayIsDisabled | components/booking/datetime-selection.tsx:77 | a date before now is disabled, today's midnight included once the day has begun |
| DateTimeSelection.Picker.constructor | components/booking/datetime-selection.tsx:45-46 | the date and time already in the booking record |
| DateTimeSelection.Picker.SelectDate | components/booking/datetime-selection.tsx:76 | the picked date, or none when the pick is cleared |
| DateTimeSelection.Picker.SelectTime | components/booking/datetime-selection.tsx:97 | the clicked slot |
| DateTimeSelection.Picker.HandleNext | components/booking/datetime-selection.tsx:50-54 | the date and time are handed over exactly when both are chosen, and then they are the only fields of the patch |
| DateTimeSelection.Picker.NextDisabled | components/booking/datetime-selection.tsx:139 | `disabled={!selectedDate || !selectedTime}`; `Picker.HandleNext` states that the hand-over happens exactly when it is off |
| DateTimeSelection.HandOverOpensStepTwo | components/booking/booking-flow.tsx:237 | after the hand-over of a non-empty time the wizard's step 2 can advance |
| ClientInformation.InitialForm | components/booking/client-information.tsx:20-25 | the record's contact details, or empty fields when there is none |
| ClientInformation.EmailTest | components/booking/client-information.tsx:38 | the e-mail regular-expression test; `EmailTestIffPattern` characterises it |
| ClientInformation.EmailTestIffPattern | components/booking/client-information.tsx:38 | `/\S+@\S+\.\S+/.test` holds exactly when some part of the text is non-spaces, "@", non-spaces, ".", non-spaces |
| ClientInformation.EmailTestUnanchored | components/booking/client-information.tsx:38 | the pattern is unanchored: text around an accepted address keeps it accepted |
| ClientInformation.EmailTestNeedsAtAndDot | components/booking/client-information.tsx:38 | an accepted text has an "@" after its first character and a later "." before its last |
| ClientInformation.EmailTestExamples | components/booking/client-information.tsx:38 | "a@b.c" passes; "a@b" and "a @b.c" fail |
| ClientInformation.IsValidEmail | components/booking/client-information.tsx:89 | the HTML "valid e-mail address" the `type="email"` input demands: local-part characters, one "@", then dot-separated labels of 1 to 63 letters, digits and inner hyphens; the lemmas below state what it admits and where it and the pattern disagree |
| ClientInformation.Submittable | components/booking/client-information.tsx:65-141 | the form passes the browser's check when the e-mail is empty or a valid e-mail address; `Form.Submit` states that only then does `handleSubmit` run |
| ClientInformation.ValidEmailHasNoSpace | components/booking/client-information.tsx:89 | every value the browser accepts is free of white space |
| ClientInformation.DoubledDotPassesPatternOnly | components/booking/client-information.tsx:38-89 | "a@b..c" passes the pattern but the browser stops it |
| ClientInformation.SpacedLocalPartPassesPatternOnly | components/booking/client-information.tsx:38-89 | "x y@b.c" passes the pattern but the browser stops it |
| ClientInformation.DotlessDomainPassesBrowserOnly | components/booking/client-information.tsx:38-89 | "a@b" passes the browser but the pattern refuses it |
| ClientInformation.OrdinaryAddressPassesBoth | components/booking/client-information.tsx:38-89 | "a@b.c" passes both checks |
| ClientInformation.WithoutNewlines | components/booking/client-information.tsx:89-91 | the e-mail value with its line feeds and carriage returns removed; a value without them is kept |
| ClientInformation.StripAsciiStart | components/booking/client-information.tsx:89-91 | a suffix of the value that does not begin with white space, the value itself when it does not |
| ClientInformation.StripAsciiEnd | components/booking/client-information.tsx:89-91 | a prefix of the value that does not end with white space, the value itself when it does not |
| ClientInformation.SanitizedEmail | components/booking/client-information.tsx:89-91 | the value an e-mail input hands to `onChange`; `SanitizedEmailShape` characterises it |
| ClientInformation.SanitizedEmailShape | components/booking/client-information.tsx:89-91 | the sanitised value has no newline, no leading or trailing white space, and sanitising it again changes nothing |
| ClientInformation.LeadingWhitespaceDropped | components/booking/client-information.tsx:89-91 | a single leading white-space character before a value without newlines or outer white space is dropped, and nothing else changes |
| ClientInformation.SanitizedEmailExample | components/booking/client-information.tsx:89-91 | " a@b.c" reaches the form as "a@b.c" |
| ClientInformation.ErrorsFor | components/booking/client-information.tsx:29-44 | an error for the name exactly when it is blank, for the e-mail exactly when it is blank or fails the pattern, for the phone exactly when it is blank, never for the notes, each with its message |
| ClientInformation.CollectErrors | components/booking/client-information.tsx:30-44 | the checks build exactly the errors `ErrorsFor` describes |
| ClientInformation.ValidIffFilledIn | components/booking/client-information.tsx:29-48 | the form is valid exactly when name, e-mail and phone are non-blank and the e-mail passes; the notes never matter |
| ClientInformation.ClearError | components/booking/client-information.tsx:57-62 | editing a field blanks its shown error and keeps every other error |
| ClientInformation.ClearErrorHidesOnlyThatField | components/booking/client-information.tsx:57-62 | the edited field shows no error; every other field shows one exactly as before |
| ClientInformation.ToClientInfo | components/booking/client-information.tsx:53 | the record handed over has the form's four fields |
| ClientInformation.SubmitOpensStepThree | components/booking/booking-flow.tsx:238 | after a submit the wizard's step 3 can advance |
| ClientInformation.Form.constructor | components/booking/client-information.tsx:20-27 | the initial form and no errors |
| ClientInformation.Form.ValidateForm | components/booking/client-information.tsx:29-48 | the shown errors become the form's errors, and the result says there are none |
| ClientInformation.Form.HandleSubmit | components/booking/client-information.tsx:50-55 | the errors are refreshed, and the contact details are handed over exactly when there are none |
| ClientInformation.Form.HandleInputChange | components/booking/client-information.tsx:57-62 | only the edited field changes, and its error is blanked |
| ClientInformation.Form.EmailChange | components/booking/client-information.tsx:89-91 | the e-mail becomes the sanitised value, nothing else in the form changes, and its error is blanked |
| ClientInformation.Form.Submit | components/booking/client-information.tsx:65-141 | submitting the form: when the browser's check fails the handler does not run, nothing is handed over and the errors stay; otherwise the errors are refreshed and the contact details are handed over exactly when there are none |
| CardInput.Chunks | components/booking/client-payment.tsx:66-69 | no groups exactly for an empty run |
| CardInput.ChunksShape | components/booking/client-payment.tsx:66-69 | the groups have 1 to 4 characters, all but the last exactly 4, there are ⌈n/4⌉ of them, and together they spell the run |
| CardInput.ChunksOfDigits | components/booking/client-payment.tsx:66-69 | the groups of a digit run are digit strings |
| CardInput.JoinedGroups | components/booking/client-payment.tsx:71 | joining digit groups with spaces and removing spaces (or non-digits) gives back their concatenation |
| CardInput.FirstRun | components/booking/client-payment.tsx:64-65 | the first match of `\d{4,16}` on a digit string: nothing below four digits, otherwise its first up to sixteen digits |
| CardInput.ChunksStep | components/booking/client-payment.tsx:67-68 | one loop turn takes the next four characters (or the rest) as a group |
| CardInput.PushGroups | components/booking/client-payment.tsx:66-69 | the loop pushes exactly the groups `Chunks` describes |
| CardInput.CardFormat | components/booking/client-payment.tsx:62-75 | `formatCardNumber` as a function; `CardFormatShape`, `CardFormatIdempotent` and `SixteenDigitsTyped` state its result |
| CardInput.FormatCardNumber | components/booking/client-payment.tsx:62-75 | the loop version formats as `CardFormat` does; components/payment/payment-method-form.tsx:52-65 is an identical copy |
| CardInput.DigitsIgnoreSpaces | components/booking/client-payment.tsx:63 | stripping spaces before non-digits keeps the same digits |
| CardInput.KeptDigits | components/booking/client-payment.tsx:62-75 | the digits the field keeps are a prefix of the typed digits: all of them below four, otherwise up to sixteen |
| CardInput.CardFormatShape | components/booking/client-payment.tsx:62-75 | the field shows at most four groups of at most four digits, all but the last full and none empty, separated by single spaces, and its digits are the kept digits |
| CardInput.CardFormatIdempotent | components/booking/client-payment.tsx:62-75 | formatting the shown value again changes nothing |
| CardInput.SixteenDigitsTyped | components/booking/client-payment.tsx:95 | the shown value has sixteen digits exactly when sixteen or more digits were typed |
| CardInput.SanitizeCvc | components/booking/client-payment.tsx:269 | the CVC is the first up to four typed digits |
| CardInput.SanitizeCvcIdempotent | components/booking/client-payment.tsx:269 | filtering the CVC again changes nothing |
| ClientPayment.InitialPaymentData | components/booking/client-payment.tsx:46-59 | empty fields and country "US"; `ValidityIgnoresCountry` states it is invalid |
| ClientPayment.IsFormValid | components/booking/client-payment.tsx:93-105 | `isFormValid`; `ValidityIgnoresCountry` and `ValidityThroughFields` state it |
| ClientPayment.ValidityIgnoresCountry | components/booking/client-payment.tsx:93-105 | the empty initial form is not valid, and the country never matters |
| ClientPayment.ValidityThroughFields | components/booking/client-payment.tsx:93-105 | through the input filters the form is valid exactly when 16 card digits and 3 CVC digits were typed, month and year are chosen, and name, street, city, state and ZIP are non-blank |
| ClientPayment.SetText | components/booking/client-payment.tsx:204-360 | a text field's handler sets only that field and never touches the card number or CVC |
| ClientPayment.Form.constructor | components/booking/client-payment.tsx:46-60 | empty fields with country "US", not processing |
| ClientPayment.Form.HandleCardNumberChange | components/booking/client-payment.tsx:77-80 | only the card number changes, to the formatted input |
| ClientPayment.Form.HandleCvcChange | components/booking/client-payment.tsx:266-271 | only the CVC changes, to the filtered input |
| ClientPayment.Form.HandleTextChange | components/booking/client-payment.tsx:204-360 | the form changes as `SetText` says |
| ClientPayment.Form.HandleSubmit | components/booking/client-payment.tsx:82-91 | the form is handed over as it stands, and processing is over |
| ClientPayment.Form.SubmitDisabled | components/booking/client-payment.tsx:387 | `disabled={!isFormValid() || processing}`; `ValidityIgnoresCountry` states that the initial form keeps it disabled |
| PaymentMethodForm.JoinLength | components/payment/payment-method-form.tsx:59-60 | the joined text is as long as its groups plus one space between each |
| PaymentMethodForm.JoinEndsWithLast | components/payment/payment-method-form.tsx:40 | the joined text ends with its last group |
| PaymentMethodForm.FormattedLength | components/payment/payment-method-form.tsx:32 | with k kept digits the shown value is k + ⌈k/4⌉ − 1 characters long, spaces included |
| PaymentMethodForm.AcceptsAsWritten | components/payment/payment-method-form.tsx:32 | the guard `cardNumber.length < 16` negated; `AsWrittenAcceptsThirteenDigits` states what it lets through |
| PaymentMethodForm.SubmissionAsWritten | components/payment/payment-method-form.tsx:32-44 | the guard as written accepts exactly a shown value of 16 or more characters, and the card's last4 is the value's last four characters |
| PaymentMethodForm.AsWrittenAcceptsThirteenDigits | components/payment/payment-method-form.tsx:32 | the guard as written accepts every card of 13 or more typed digits |
| PaymentMethodForm.ChunksOfThirteen | components/payment/payment-method-form.tsx:56-58 | thirteen digits form three full groups and one single digit |
| PaymentMethodForm.FormattedThirteen | components/payment/payment-method-form.tsx:52-65 | thirteen digits show as three groups of four and a single digit, space-separated |
| PaymentMethodForm.AsWrittenAcceptsThirteen | components/payment/payment-method-form.tsx:32-40 | a 13-digit card is accepted as written, and its last4 is two digits, a space and the last digit |
| PaymentMethodForm.Accepts | components/payment/payment-method-form.tsx:32 | the corrected guard, sixteen characters besides white space; `SubmissionOfTypedCard` states what it lets through |
| PaymentMethodForm.Submission | components/payment/payment-method-form.tsx:32-44 | the corrected guard accepts exactly sixteen card digits; the card is a Visa with four last digits and the parsed expiry |
| PaymentMethodForm.SubmissionOfTypedCard | components/payment/payment-method-form.tsx:32-44 | through the formatter the corrected submit accepts exactly when sixteen digits were typed, and last4 is the 13th to 16th typed digit |
| PaymentMethodForm.CorrectionAgreesFromSixteenDigits | components/payment/payment-method-form.tsx:32-44 | from sixteen typed digits on, the guard as written and the corrected one give the same card |
| PaymentMethodForm.ChunksOfSixteen | components/payment/payment-method-form.tsx:56-58 | sixteen digits form four full groups |
| PaymentMethodForm.MethodForm.constructor | components/payment/payment-method-form.tsx:20-26 | all five fields empty |
| PaymentMethodForm.MethodForm.HandleNameChange | components/payment/payment-method-form.tsx:85 | only the name changes |
| PaymentMethodForm.MethodForm.HandleCardNumberChange | components/payment/payment-method-form.tsx:96-100 | only the card number changes, to the formatted input |
| PaymentMethodForm.MethodForm.HandleExpiryMonthChange | components/payment/payment-method-form.tsx:112 | only the month changes |
| PaymentMethodForm.MethodForm.HandleExpiryYearChange | components/payment/payment-method-form.tsx:131 | only the year changes |
| PaymentMethodForm.MethodForm.HandleCvcChange | components/payment/payment-method-form.tsx:152-156 | only the CVC changes, to the filtered input |
| PaymentMethodForm.MethodForm.HandleSubmit | components/payment/payment-method-form.tsx:28-50 | as written: a card whose shown value is shorter than 16 characters, spaces counted, leaves the store unchanged; any other is appended under its new id with the last four characters of the shown value as last4 |
| PaymentMethodForm.MethodForm.HandleSubmitCorrected | components/payment/payment-method-form.tsx:28-50 | the corrected handler: a card is appended exactly when sixteen digits were kept, with last4 taken from the digits; otherwise the store is unchanged |
| PaymentMethodForm.MethodForm.SubmitDisabled | components/payment/payment-method-form.tsx:170 | `disabled={loading}`; `MethodForm.Submit` states that nothing is added while it holds |
| PaymentMethodForm.MethodForm.Submit | components/payment/payment-method-form.tsx:78-170 | submitting the form: a card is added exactly when the button is enabled, the `required` name, card number and CVC are filled in and the handler's guard passes; otherwise the store is unchanged |
| PaymentMethodForm.Submittable | components/payment/payment-method-form.tsx:86-159 | the browser's constraint validation: name, card number and CVC not empty; `SubmittableBeyondGuard` states what it adds to the handler's guard |
| PaymentMethodForm.SubmittableBeyondGuard | components/payment/payment-method-form.tsx:86-159 | past the handler's guard the card number is filled in, so only the name and CVC remain required; a card without a name never reaches the handler |
| ApiTypes.OrElse | app/api/services/route.ts:139 | `value \|\| fallback` on a string: the value when it is non-empty, otherwise the fallback |
| Pagination.LimitOf | app/api/services/route.ts:24 | the limit is `NaN` exactly when the text does not parse, and never above 100 |
| Pagination.PageOf | app/api/services/route.ts:23 | `parseInt(page || "1")`; `Defaults` and `NumeralParams` state it |
| Pagination.Defaults | app/api/services/route.ts:23-24 | with no parameter, or an empty one, page 1 and limit 10 |
| Pagination.NumeralParams | app/api/appointments/route.ts:26-27 | a decimal numeral page is read as its value; a numeral limit is capped at 100 |
| Pagination.AppointmentsPageInfo | app/api/appointments/route.ts:82-87 | the page information echoes the page and limit, with one item on one page |
| ServicesRoute.NewService | app/api/services/route.ts:132-148 | the new service has the id "now", user "1", the body's name, description, duration and price, currency "USD" unless given, is active, needs preparation only when the body says so, and was created and updated "now" |
| ServicesRoute.CreateService | app/api/services/route.ts:91-157 | the POST handler; `CreateServiceOutcome` and `CreateServiceErrorOrder` state its answers |
| ServicesRoute.Acceptable | app/api/services/route.ts:96-125 | the three guards passed; `CreateServiceOutcome` states that creation happens exactly then |
| ServicesRoute.CreateServiceOutcome | app/api/services/route.ts:91-157 | the service is created (201, with its message) exactly when the body passes the three guards; every failure is a 400 with one of the three messages |
| ServicesRoute.CreateServiceErrorOrder | app/api/services/route.ts:96-126 | a zero duration or price fails the "required" guard first; a short duration is reported before a low price; the price error appears exactly when everything else passes and the price is below 100 cents |
| WorkingHoursRoute.UpdateWorkingHours | app/api/availability/working-hours/route.ts:65-110 | the PUT handler; `UpdateWorkingHoursOutcome` and `FalsyValuesAccepted` state its answers |
| WorkingHoursRoute.UpdateWorkingHoursOutcome | app/api/availability/working-hours/route.ts:65-110 | the update succeeds exactly when the three fields are present and the day is 0..6, and then echoes them; the record was created and updated "now"; every failure is a 400, the "required" one exactly when a field is missing |
| WorkingHoursRoute.FalsyValuesAccepted | app/api/availability/working-hours/route.ts:70 | day 0, "not available" and an empty slot list pass the presence guard |
| AppointmentsRoute.PaymentStatusFor | app/api/appointments/route.ts:165 | "paid" exactly for the "card" method, otherwise "unpaid", never "refunded" |
| AppointmentsRoute.NewAppointment | app/api/appointments/route.ts:157-195 | the new appointment has the id "now", the body's service, start, notes, method and client details, ends one hour after the start, is pending and unreminded; the appointment, its service and its client were created and updated "now" |
| AppointmentsRoute.MockService | app/api/appointments/route.ts:174-186 | the canned "Business Consultation" service under the requested id; `NewAppointment` states that the appointment carries it |
| AppointmentsRoute.CreateAppointment | app/api/appointments/route.ts:121-205 | the POST handler, with the 500 its `catch` gives when the end time cannot be rendered; `CreateAppointmentOutcome`, `CreateAppointmentErrorOrder` and `StartNearDateLimit` state its answers |
| AppointmentsRoute.CreateAppointmentOutcome | app/api/appointments/route.ts:121-205 | the appointment is created (201) exactly when the four required fields are given, the start lies after now, and the end an hour later is still a valid `Date`; otherwise the answer is a 400 or, when `toISOString` throws, a 500 |
| AppointmentsRoute.CreateAppointmentErrorOrder | app/api/appointments/route.ts:127-147 | a missing field is reported first; a start equal to now is "in the past" |
| AppointmentsRoute.StartNearDateLimit | app/api/appointments/route.ts:163 | a start within the hour before the last instant a `Date` holds (8.64e15 ms) is answered 500, because its end is an invalid date; a start one hour before that limit is accepted |
| AppointmentsRoute.EndIsOneHourLater | app/api/appointments/route.ts:163 | the end is one hour after the start whatever the service |
| RegisterRoute.NewUser | app/api/auth/register/route.ts:55-70 | the new user has the id "now", the body's names, e-mail and phone, time zone "UTC" unless given, the professional role and a 14-day basic trial, created and updated "now" |
| RegisterRoute.Register | app/api/auth/register/route.ts:25-83 | the POST handler; `RegisterOutcome` and `RegisterErrorOrder` state its answers |
| RegisterRoute.RegisterOutcome | app/api/auth/register/route.ts:25-83 | registration succeeds (201, with the mock token) exactly when e-mail, first and last name are given and the password is at least six UTF-16 code units long, as `length` counts them |
| RegisterRoute.RegisterErrorOrder | app/api/auth/register/route.ts:29-48 | a missing field is reported first; the password error appears exactly when all fields are given and the password is shorter than six UTF-16 code units |
| RegisterRoute.PasswordLengthInCodeUnits | app/api/auth/register/route.ts:40 | three emoji (six code units) pass the length check, three letters do not |
| LoginRoute.MockUser | app/api/auth/login/route.ts:35-49 | the mock user has id "1", the request's e-mail, the professional role and a 30-day professional subscription, created and updated "now" |
| LoginRoute.Login | app/api/auth/login/route.ts:19-58 | the POST handler; `LoginOutcome` states its answers |
| LoginRoute.LoginOutcome | app/api/auth/login/route.ts:19-58 | login succeeds (200, with the mock token and the e-mail given) exactly when e-mail and password are given, and which non-empty password makes no difference |
| ApiService.ApiRequest | lib/api-service.ts:33-63 | `apiRequest` on a given fetch outcome; `ApiRequestErrors`, `RefusedMessage` and `RequestFailureMessages` state its results |
| ApiService.ApiRequestErrors | lib/api-service.ts:33-63 | a value comes back exactly when the response is OK with a JSON body; a refused response becomes an error with its status, a non-empty message and the body's code; anything else becomes the network error with status 0 |
| ApiService.RefusedMessage | lib/api-service.ts:51-53 | a refused response's message is the body's non-empty message, otherwise "HTTP " followed by the status |
| ApiService.ErrorMessage | lib/api-service.ts:503-522 | the message `handleApiError` gives; `ErrorMessageCases` states it per status |
| ApiService.ErrorMessageCases | lib/api-service.ts:503-522 | 401, 403, 404 and 500 give fixed messages; other statuses give the error's own message when it has one, else "Invalid data provided." for 422 and the generic text otherwise; the connection text comes only from an error carrying it |
| ApiService.RequestFailureMessages | lib/api-service.ts:33-63 | a failed fetch is shown as the network error, and a refused response without a body under another status as "HTTP " and the status |
| ApiService.Session.constructor | lib/api-service.ts:37 | the stored token and user |
| ApiService.Session.Logout | lib/api-service.ts:118-121 | the stored token and user are removed |
| ApiService.Session.HandleError | lib/api-service.ts:503-522 | the message as `ErrorMessage` gives it; a 401 also logs out, and nothing else touches the session |
| ApiService.BlockedTimesQueryText | lib/api-service.ts:298-302 | the query string is empty exactly when neither date is given |
| ApiService.BlockedTimesQuery | lib/api-service.ts:299-302 | the parameters appended in turn serialise to the query text |
| ApiService.Serialize | lib/api-service.ts:302 | `URLSearchParams.toString()`: name=value pairs joined by "&"; `BlockedTimesQuery` states it for the route's parameters |
| ApiService.BlockedTimesEndpoint | lib/api-service.ts:304 | the endpoint is the blocked-times path followed by the query text |
| Billing.TotalRevenue | components/billing/billing-dashboard.tsx:84-86 | the sum of completed payments; `RevenueFigures` and `MockFigures` state its value |
| Billing.PendingRevenue | components/billing/billing-dashboard.tsx:88-90 | the sum of pending payments; `RevenueFigures` and `MockFigures` state its value |
| Billing.TotalFees | components/billing/billing-dashboard.tsx:92 | `Math.abs` of the fee total; `RevenueFigures` states it |
| Billing.NetRevenue | components/billing/billing-dashboard.tsx:94 | revenue less fees; `RevenueFigures` states it |
| Billing.Sum | components/billing/billing-dashboard.tsx:84-92 | the `reduce` sum of amounts; `SumSplits` and `SumSign` state it |
| Billing.IsCompletedPayment | components/billing/billing-dashboard.tsx:85 | a completed payment; `CompletedNotPending` states it excludes pending ones |
| Billing.IsPendingPayment | components/billing/billing-dashboard.tsx:89 | a pending payment; `CompletedNotPending` states it excludes completed ones |
| Billing.IsFee | components/billing/billing-dashboard.tsx:92 | a fee; `RevenueFigures` uses it |
| Billing.IsPayout | components/billing/billing-dashboard.tsx:367 | a payout; `PayoutsMeaning` states the tab |
| Billing.SumSplits | components/billing/billing-dashboard.tsx:84-92 | the sums of the kept and the dropped transactions add up to the sum of all |
| Billing.SumSign | components/billing/billing-dashboard.tsx:92 | a list of non-negative amounts sums to at least 0, of non-positive amounts to at most 0 |
| Billing.RevenueFigures | components/billing/billing-dashboard.tsx:84-94 | when fees are non-positive, the fee total is the negated fee sum and net revenue is revenue plus the fee sum; no transaction counts as both completed and pending |
| Billing.Payouts | components/billing/billing-dashboard.tsx:367-368 | the payouts tab; its meaning is `PayoutsMeaning` |
| Billing.PayoutsMeaning | components/billing/billing-dashboard.tsx:367-368 | the payouts tab lists exactly the payout transactions, in their order |
| Billing.Recent | components/billing/billing-dashboard.tsx:233 | at most five transactions, a prefix of the list, all of them when there are at most five |
| Billing.DollarText | components/billing/billing-dashboard.tsx:161 | `String` of an amount of dollars held in cents; `DollarTextRoundTrip` states its meaning |
| Billing.DollarTextExamples | components/billing/billing-dashboard.tsx:161 | $7.50 prints as "7.5", $150 as "150" and five cents as "0.05" |
| Billing.DollarTextRoundTrip | components/billing/billing-dashboard.tsx:161 | the dollar text of any number of cents reads back as that number; it has a decimal point exactly when there are cents, and then does not end in a zero, as JavaScript prints numbers |
| Billing.AmountText | components/billing/billing-dashboard.tsx:246-249 | an amount is listed as "+$" when positive and "$" otherwise, followed by the dollar text of the absolute amount, which reads back as that amount |
| Billing.AmountTextSign | components/billing/billing-dashboard.tsx:246-249 | the "+" appears exactly for positive amounts, and otherwise the absolute value follows "$" |
| Billing.MockFigures | components/billing/billing-dashboard.tsx:31-94 | for the sample data: $225 revenue, $200 pending, $7.50 fees, $217.50 net and one payout |
| I18n.LanguageOf | lib/i18n/context.tsx:38-44 | a stored value names a language exactly when it is "en" or "pt-BR" |
| I18n.LanguageCodeRoundTrip | lib/i18n/context.tsx:41-48 | reading back a stored language code gives that language |
| I18n.LanguageCode | lib/i18n/context.tsx:48 | the code stored for a language; `LanguageCodeRoundTrip` states it reads back |
| I18n.Resolve | lib/i18n/context.tsx:55-61 | the walk over the key segments; `ResolveAppend`, `ResolveStep` and `MissingStaysMissing` state it |
| I18n.MissingStaysMissing | lib/i18n/context.tsx:60 | once `value?.[k]` is undefined, the rest of the walk stays undefined |
| I18n.ResolveAppend | lib/i18n/context.tsx:55-61 | walking a path is walking its first part and then the rest from where that ends |
| I18n.ResolveStep | lib/i18n/context.tsx:58-61 | one loop turn takes one segment |
| I18n.Step | lib/i18n/context.tsx:60 | `value?.[k]`; `MissingStaysMissing` and `ResolveStep` state it |
| I18n.Placeholder | lib/i18n/context.tsx:72 | the placeholder is the name inside double braces |
| I18n.ReplaceAll | lib/i18n/context.tsx:72 | `replace` with a global pattern; `ReplaceAllAbsent`, `ReplaceAllBySelf`, `ReplaceAllWhole`, `ReplaceAllSkip` and `ReplaceAllFront` state it |
| I18n.ReplaceAllAbsent | lib/i18n/context.tsx:72 | a global replace of a pattern that does not occur leaves the text unchanged |
| I18n.ReplaceAllBySelf | lib/i18n/context.tsx:72 | replacing a pattern by itself leaves the text unchanged |
| I18n.ReplaceAllWhole | lib/i18n/context.tsx:72 | a text that is just the pattern becomes the replacement |
| I18n.ReplaceAllSkip | lib/i18n/context.tsx:72 | a character that cannot start the pattern is kept, and the scan continues after it |
| I18n.ReplaceAllFront | lib/i18n/context.tsx:72 | an occurrence at the front is replaced, and the scan continues after it |
| I18n.Substitute | lib/i18n/context.tsx:70-74 | the placeholder `reduce`; `SubstituteOne` and `SubstituteNothingToFill` state it |
| I18n.SubstituteNothingToFill | lib/i18n/context.tsx:70-74 | parameters whose placeholders do not occur leave the text unchanged |
| I18n.SubstituteOne | lib/i18n/context.tsx:70-74 | a lone placeholder is filled with its parameter's value |
| I18n.SubstituteGreeting | lib/i18n/context.tsx:70-74 | "Hi {{name}}!" with name "Ana" becomes "Hi Ana!" |
| I18n.Translate | lib/i18n/context.tsx:51-77 | `t` on a given tree; `TranslatePath` states it and `Translator.T` computes it |
| I18n.TranslatePath | lib/i18n/context.tsx:51-77 | a dotted key whose path ends at a string translates to that string; any other key comes back as itself |
| I18n.Translator.constructor | lib/i18n/context.tsx:36 | the language starts as Brazilian Portuguese |
| I18n.Translator.LoadSavedLanguage | lib/i18n/context.tsx:38-44 | a stored "en" or "pt-BR" is adopted; anything else keeps the current language |
| I18n.Translator.SetLanguage | lib/i18n/context.tsx:46-49 | the language becomes the chosen one |
| I18n.Translator.T | lib/i18n/context.tsx:51-77 | the segment loop, the fallback and the substitution give exactly `Translate` on the current language's tree |
| Dashboard.Weekday | components/dashboard/dashboard.tsx:63 | `getDay()` is in 0..6 |
| Dashboard.WeekStart | components/dashboard/dashboard.tsx:62-65 | the Sunday of a date's week; its meaning is `WeekStartMeaning` |
| Dashboard.WeekStartMeaning | components/dashboard/dashboard.tsx:62-65 | the week start is a Sunday at most six days before the date, and the only such Sunday |
| Dashboard.SameWeek | components/dashboard/dashboard.tsx:67-71 | every day of a week has that week's Sunday as its start |
| Dashboard.GetWeekDates | components/dashboard/dashboard.tsx:60-73 | seven days, starting at the week start, each one day after the last |
| Dashboard.WeekDatesMeaning | components/dashboard/dashboard.tsx:60-73 | the strip starts on a Sunday, contains the date, shows weekday i at position i, and lies in one week |
| Dashboard.Shifted | components/dashboard/dashboard.tsx:85 | "next" moves seven days forward, "prev" seven back |
| Dashboard.ShiftedInverse | components/dashboard/dashboard.tsx:83-87 | next and prev undo each other, keep the weekday, and move the week start by one week |
| Dashboard.WeekView.constructor | components/dashboard/dashboard.tsx:57 | the current week starts at today |
| Dashboard.WeekView.NavigateWeek | components/dashboard/dashboard.tsx:83-87 | the current date moves one week in the direction |
| Dashboard.FirstLetters | components/dashboard/dashboard.tsx:458-461 | at most one letter per word |
| Dashboard.Initials | components/dashboard/dashboard.tsx:458-461 | the avatar initials; `InitialsOfWords` states them |
| Dashboard.InitialsOfWords | components/dashboard/dashboard.tsx:458-461 | a name of non-empty words separated by single spaces gets exactly one initial per word, each word's first letter |
| Dashboard.FirstLettersOfWords | components/dashboard/dashboard.tsx:460-461 | non-empty words give one letter each, their first |
| Dashboard.InitialsExample | components/dashboard/dashboard.tsx:458-461 | "Sarah Johnson" shows as "SJ" |
| BookingSuccess.FormatTimeOfBookingTime | components/booking/booking-success.tsx:16-22 | the success page prints a booked "HH:MM" as the 12-hour hour in 1..12, the minutes and AM/PM, the same formatter again |
| BookingSuccess.EventDate.constructor | components/booking/booking-success.tsx:26 | a copy of the booked date |
| BookingSuccess.EventDate.SetHours | components/booking/booking-success.tsx:27-28 | the clock is set to the parsed hour and minute on the same day, keeping seconds; an invalid date or NaN makes the date invalid |
| BookingSuccess.EventDate.AddMinutes | components/booking/booking-success.tsx:30-31 | the date moves the given number of minutes later |
| BookingSuccess.CivilFromDays | components/booking/booking-success.tsx:35-36 | the calendar month is in 1..12 and the day in 1..31 |
| BookingSuccess.CivilRoundTrip | components/booking/booking-success.tsx:35-36 | counting the days of the calendar date given for a day count gives the day count back, so distinct days get distinct dates |
| BookingSuccess.CivilEpoch | components/booking/booking-success.tsx:35 | day 0 is 1 January 1970 |
| BookingSuccess.CivilMidJanuary2024 | components/booking/booking-success.tsx:35 | day 19737 is 15 January 2024 |
| BookingSuccess.CivilLeapDay2000 | components/booking/booking-success.tsx:35 | day 11016 is 29 February 2000 |
| BookingSuccess.CivilEveOfEpoch | components/booking/booking-success.tsx:35 | day −1 is 31 December 1969 |
| BookingSuccess.MinuteOfDay | components/booking/booking-success.tsx:35-36 | the minute of the day is in 0..1439 |
| BookingSuccess.UtcParts | components/booking/booking-success.tsx:35-36 | valid clock fields and calendar ranges, with hour and minute spelling the minute of the day |
| BookingSuccess.IsoText | components/booking/booking-success.tsx:35-36 | `toISOString` is 24 characters |
| BookingSuccess.CompactIso | components/booking/booking-success.tsx:35-36 | removing "-" and ":", cutting at the "." and adding "Z" gives the compact "YYYYMMDDTHHMMSSZ" form |
| BookingSuccess.CompactHead | components/booking/booking-success.tsx:35-36 | the compact form before its "Z" is 15 characters |
| BookingSuccess.FilterIso | components/booking/booking-success.tsx:35-36 | the replace removes exactly the separators "-" and ":" from the ISO text |
| BookingSuccess.AddToCalendar | components/booking/booking-success.tsx:24-36 | the two `Date` objects give the event times `EventTimes` describes: none for an invalid date, otherwise the compact start and the start plus the duration |
| BookingSuccess.WithClock | components/booking/booking-success.tsx:28 | `setHours(h, m)` on an instant: the same day at h:m with the seconds kept; `ClockAt` states it |
| BookingSuccess.MinutesLater | components/booking/booking-success.tsx:30-31 | `setMinutes(getMinutes() + d)`: d minutes later; `EventEndClock` states it |
| BookingSuccess.EventStart | components/booking/booking-success.tsx:26-28 | the start instant, none for an invalid date; `EventStartsAtBookingTime` states it |
| BookingSuccess.EventTimes | components/booking/booking-success.tsx:24-36 | the compact start and end of the event; `AddToCalendar` is proved to compute it |
| BookingSuccess.Compact | components/booking/booking-success.tsx:35-36 | `replace(/[-:]/g, "").split(".")[0] + "Z"`; `CompactIso` and `FilterIso` state it |
| BookingSuccess.EventStartsAtBookingTime | components/booking/booking-success.tsx:26-28 | on an "HH:MM" time the event starts on the booked day at that hour and minute, keeping the seconds |
| BookingSuccess.ClockAt | components/booking/booking-success.tsx:28 | setting the clock keeps the day and the seconds and shows the hour and minute set |
| BookingSuccess.EventEndClock | components/booking/booking-success.tsx:30-31 | within one day the end is the start's clock plus the duration, on the same day, with the same seconds |
| BookingSuccess.Decompose | components/booking/booking-success.tsx:35-36 | an instant is its day, its minute of the day and its remainder |
| BookingSuccess.Compose | components/booking/booking-success.tsx:28 | a day, a minute and a remainder in range come back apart as themselves |
| Text.TrimStart | components/booking/client-information.tsx:32 | the leading whitespace removed: a suffix starting with a non-space, everything before it whitespace |
| Text.TrimEnd | components/booking/client-information.tsx:32 | the trailing whitespace removed: a prefix ending with a non-space, everything after it whitespace |
| Text.Trim | components/booking/client-information.tsx:32 | `trim()`; `TrimStart`, `TrimEnd` and `BlankIffAllSpaces` state it |
| Text.BlankIffAllSpaces | components/booking/client-information.tsx:32 | `!s.trim()` holds exactly when the text is all whitespace |
| Text.DigitsOnly | components/booking/client-payment.tsx:63 | `replace(/[^0-9]/gi, "")` keeps only digits, and keeps a digit string whole |
| Text.WithoutSpaces | components/booking/client-payment.tsx:95 | `replace(/\s/g, "")` leaves no whitespace |
| Text.NatToString | app/api/services/route.ts:133 | `Date.now().toString()` is a non-empty decimal numeral without a leading zero |
| Text.DecimalRoundTrip | app/api/services/route.ts:133 | the numeral reads back as the number |
| Text.Pad2 | components/timetable/availability-settings.tsx:39 | `padStart(2, "0")` of a number below 100 is two digits denoting it |
| Text.ParseInt | components/booking/booking-success.tsx:18 | `Number.parseInt`; `ParseIntOfNumeral` and `ParseIntOfNatToString` state it on numerals |
| Text.ParseIntOfNumeral | components/booking/booking-success.tsx:28 | `parseInt` reads a leading decimal numeral, leading zeros included, and ignores what follows a non-digit |
| Text.ParseIntOfNatToString | app/api/services/route.ts:23 | `parseInt` of a number's numeral gives the number |
| Text.Split | lib/i18n/context.tsx:55 | `split` gives at least one part, none containing the separator |
| Text.Join | components/payment/payment-method-form.tsx:61 | `join` with one separator; `JoinSplit` and `SplitJoin` state it against `split` |
| Text.JoinSplit | lib/i18n/context.tsx:55 | joining the parts of a split with the separator gives back the text |
| Text.SplitJoin | lib/i18n/context.tsx:55 | splitting parts joined with a separator they lack gives back the parts |
| Text.SliceLast | components/payment/payment-method-form.tsx:40 | `slice(-k)` is the last k characters, or the whole text when shorter |
| Text.Utf16Length | app/api/auth/register/route.ts:40 | `length` counts UTF-16 code units: between one and two per character, and exactly one per character when none lies outside the Basic Multilingual Plane |
| Seqs.Filter | components/dashboard/booking-management.tsx:116-119 | `filter` keeps only elements that pass and never grows the list |
| Seqs.FilterMembers | components/dashboard/booking-management.tsx:116-119 | an element is kept exactly when it is in the list and passes |
| Seqs.FilterIsSubsequence | components/dashboard/booking-management.tsx:116-119 | the kept elements keep their order |
| Seqs.FilterAppend | components/billing/billing-dashboard.tsx:84-92 | filtering a concatenation filters each part |
| Seqs.FilterIdempotent | components/billing/billing-dashboard.tsx:84-92 | filtering twice by the same test is filtering once |
| Seqs.MapWhere | components/dashboard/booking-management.tsx:87-91 | `map(x => matches ? update : x)` updates exactly the matching elements and keeps the length |
| Seqs.MapWhereNoMatch | components/dashboard/booking-management.tsx:87-91 | with no match the list is unchanged |

## Left out

- Network, storage and browser I/O: `fetch` is a `FetchOutcome` parameter of `ApiService.ApiRequest`; the stored session is the two fields of `ApiService.Session`; the language's persistence (lib/i18n/context.tsx:48), `window.open`, `navigator.share`, the clipboard and `alert` are not modelled.
- Simulated delays, `async` ordering and the mount effects: each `Payments.Store` method gives the state once its operation has finished, and `Payments.Store.FinishInitialLoad` is the end of the initial load.
- "Now", `Date.now()`-derived ids and today's date are parameters; `new Date()` in a form default is the `today`/`now` argument.
- Local time zones and daylight saving: the booking-success calendar event and the dashboard use UTC as local time; `toLocaleDateString` and date-fns `format` are not modelled; whether a date is today (`isSameDay`) is a flag.
- BookingSuccess.IsoText: only years 0..9999 are printable; `toISOString` on years outside that range (six-digit years with a sign) is not modelled, and `BookingSuccess.EventTimes` gives no event for them.
- Dashboard.GetWeekDates: dates are day numbers; the time of day a `Date` carries along is kept by every operation and is not modelled.
- The ISO renderings of `createdAt`, `updatedAt`, `currentPeriodEnd` and the appointment times are epoch milliseconds. Every `new Date()` of one request is read as the same instant `now`, so a record's `createdAt` and `updatedAt` are equal; the appointment route's parsing of `startTime` is the `parsedStart` parameter.
- Floating-point arithmetic: the 8% tax line of the payment step is not modelled; billing amounts are integer cents; PricingPlans.ShownPrice computes `Math.floor(p * 0.8)` as `(4 * p) / 5`, which agrees for the whole-dollar plan prices.
- I18n.ReplaceAll: a parameter name is taken literally, not as a regular expression, and `$` patterns in replacement values are not interpreted; parameter values arrive already converted by `String`.
- I18n.Step: properties inherited from the object prototype are not found by the lookup.
- I18n.SubstituteNothingToFill: states that unmatched placeholders leave the text unchanged only when none of the parameters' placeholders occur, not the stronger "every other placeholder survives a partial fill".
- lib/i18n/translations/en.ts and lib/i18n/translations/pt-BR.ts are not part of this model: the two translation trees are given to `I18n.Translator.constructor`.
- ApiService.Serialize: `URLSearchParams` percent-encoding of special characters is not modelled.
- Input `maxLength` limits and the select lists (months, years, categories) of the forms are not modelled: any text can reach a field's change handler. The browser's constraint validation is modelled for the three forms whose submit event carries it: `required` and `min` (`ServiceForm.Submittable`, `PaymentMethodForm.Submittable`) and the `type="email"` check of the client-information form (`ClientInformation.Submittable`).
- PaymentMethodForm.MethodForm.HandleSubmit: models the handler alone, which accepts an empty name or CVC; the browser runs it only when `PaymentMethodForm.Submittable` holds and the button is enabled, which `MethodForm.Submit` models.
- ClientInformation.Form.HandleSubmit: models the handler alone, which sees only the regular-expression test; the browser runs it only when `ClientInformation.Submittable` holds, which `Form.Submit` models.
- ClientInformation.IsValidEmail: the browser's conversion of a non-ASCII domain to its ASCII form before the check is not modelled; such a domain is refused.
- ServiceForm.Form.HandleSubmit: models the handler alone, which passes on an empty name; the browser runs it only when `ServiceForm.Submittable` holds, which `Form.Submit` models.
- ServiceForm.Form.HandleInputChange: prices are whole cents. The price input's conversion `Number.parseFloat(value) || 0` (components/services/service-form.tsx:105) reads dollars, turns an unreadable text into 0 and can yield fractions of a cent; it is not modelled, and `SetNumber(Price, v)` takes the cents directly.
- WorkingHoursRoute.UpdateWorkingHours: a JSON `null` for `dayOfWeek` or `isAvailable` cannot be expressed (the fields are `Option`s of an integer and a flag). The source accepts it: `null === undefined` is false, and `null < 0` and `null > 6` are both false, so the update succeeds and echoes the `null` (app/api/availability/working-hours/route.ts:70, 81). A `null` `timeSlots` is falsy and rejected, as the model's `None` is. Overlap and ordering of time slots are not checked, as in the source.
- Slot conflicts, buffers, recurring-block expansion and working-hour overlap checks are not implemented by the source and are not modelled; the offered slots are the hard-coded list.
- The GET handlers' canned responses, the analytics route, pure rendering (colours, badges, icons, layout) and the e-mail templates are not modelled; the GET pagination values are (`Pagination`).
- ClientPayment.Form.HandleSubmit: the submit button is disabled while `SubmitDisabled()` holds; the handler itself runs unguarded, as in the source.
- Transaction dates, descriptions' formatting and the e-mail/phone display of the dashboard are not modelled.
- Dashboard.FirstLetters: indexes and lengths count characters (Unicode scalar values), not UTF-16 code units; `n[0]` on a name starting outside the Basic Multilingual Plane gives a lone surrogate in JavaScript and the whole character here. Only the register route's password check measures UTF-16 length (`Text.Utf16Length`).
- Malformed request bodies: each route reads `await request.json()` inside `try`, and a body that is not JSON falls into the `catch` and is answered 500 (app/api/services/route.ts:93, app/api/auth/register/route.ts:26, app/api/auth/login/route.ts:20, app/api/availability/working-hours/route.ts:67). The route models take an already-parsed body and have no 500 outcome for it.
- JSON values of the wrong type: the route models type each field as text, number or flag as declared. The source does not check types, so `{"password": 1234567}` has `length` undefined, `undefined < 6` is false, and the source registers the user; the model cannot express such a body.
- Logging: the `console.log` of the completed booking (components/booking/booking-flow.tsx:128), the `console.log` and `console.warn` calls of the translation function (lib/i18n/context.tsx:53-66) and the `console.error` calls in catch blocks are not modelled.

## Findings

| source | as written | input that shows it | evidently intended | confidence | as-written member | corrected member |
|---|---|---|---|---|---|---|
| components/payment/payment-method-form.tsx:32-44 | the guard `formData.cardNumber.length < 16` counts the spaces `formatCardNumber` inserts, and `last4` is `cardNumber.slice(-4)` of the spaced text | typing the 13 digits "4242424242424" shows "4242 4242 4242 4", 16 characters: the card is accepted and `last4` is "42 4" | a card needs sixteen digits, spaces not counted (the rule of components/booking/client-payment.tsx:95), and `last4` is the last four digits | not executed | PaymentMethodForm.SubmissionAsWritten, PaymentMethodForm.AsWrittenAcceptsThirteen, PaymentMethodForm.MethodForm.HandleSubmit | PaymentMethodForm.Submission, PaymentMethodForm.SubmissionOfTypedCard, PaymentMethodForm.MethodForm.HandleSubmitCorrected |
