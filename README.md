# Barbershop booking flow, modelled in Dafny

The site is a single marketing page for a barbershop with a booking modal.
This project models the only part with behaviour: the booking flow.

* **The appointments table** (`src/lib/supabase.ts`), in module `AppointmentStore`
  (`appointment_store.dfy`). The hosted table is a sequence of `Appointment` rows. Keeping
  them in insertion order is the model's own choice: the queries promise no row order, so
  only membership and multiplicity of their answers are stated. `fetchOccupiedSlots` is a filter-and-project query. `isSlotAvailable`
  is a point read through `maybeSingle`. `createAppointment` is a check-then-insert
  guard: the pure function `Reserve` gives its outcome, and the in-place method
  `AppointmentTable.CreateAppointment` performs it. Each store round trip that can
  fail takes a boolean flag saying whether it failed.
* **The time filter** (`src/app/page.tsx`, `allAvailableTimes` and `availableTimes`),
  in module `TimeSlots` (`time_slots.dfy`).
* **The booking wizard** (`src/app/page.tsx`, the state hooks and handlers), in module
  `Booking` (`booking_wizard.dfy`). Class `BookingWizard` has one field per piece of
  component state: `showBooking`, `currentStep`, `booking`, `occupiedSlots` and
  `bookingError`. It has one method per handler or button. Its invariant `Valid()`
  states what every reachable state satisfies:
  * every step past the first already has the fields that earlier steps fill;
  * client name and phone are present exactly on the confirmation step;
  * a closed modal holds a fresh wizard.

  Each handler requires the step on which the page renders its button, and an open
  modal. That is the only place the page calls it.

The main properties:

* No two rows share (barber, date, slot) after any sequence of `createAppointment`
  calls made one after another (`ReserveAllPreservesNoDoubleBooking`).
* The occupied list is exactly the slots on record, with one entry per row
  (`FetchOccupiedSlots`, `OccupiedSlotsMultiplicity`).
* The time filter keeps order and partitions the canonical times (the `AvailableTimes*`
  lemmas).
* A time the wizard offers after a successful read is free in the table
  (`OfferedTimesAreFree`).
* The two end-to-end scenarios (`BookFreeSlotScenario`, `SlotTakenMeanwhileScenario`).

Three behaviours of the code worth knowing:

* `fetchOccupiedSlots` returns a list, not a set. A slot booked twice for the same
  barber and date appears twice.
* When the availability re-check itself fails, `createAppointment` answers with the
  "acabou de ser reservado" message, not the generic retry message. Only a failed
  insert gets "Erro ao criar agendamento. Tente novamente."
* `maybeSingle` reports an error when more than one row matches. So `isSlotAvailable`
  also answers false on a table that already holds a double booking.

## Model

| member | source | states |
|---|---|---|
| AppointmentStore.OccupiedSlots | src/lib/supabase.ts:24-35 | A time is listed iff some row has that barber, date and time; the list is no longer than the table |
| AppointmentStore.OccupiedSlotsMultiplicity | src/lib/supabase.ts:24-35 | Each time appears as often as rows book it for that barber and date (`map` over the selected rows, no de-duplication) |
| AppointmentStore.FetchOccupiedSlots | src/lib/supabase.ts:23-36 | On a query error the result is `[]` (fail open); otherwise exactly the booked times of that barber and date, with their multiplicities |
| AppointmentStore.FetchSingleRow | src/lib/supabase.ts:24-35 | A table of one row lists exactly that row's time for its barber and date |
| AppointmentStore.MaybeSingle | src/lib/supabase.ts:46-52 | `Absent` iff the read succeeds and no row matches the triple; `Present` iff it succeeds and exactly one row matches; an error otherwise, including for several matches |
| AppointmentStore.IsSlotAvailable | src/lib/supabase.ts:41-61 | True iff the read succeeds and no row matches barber, date and slot at once; a failed read answers false (fail closed) |
| AppointmentStore.Reserve | src/lib/supabase.ts:66-105 | Success iff neither store call fails and the slot is free; success appends exactly the given appointment and returns it with the confirmation message; every failure leaves the table unchanged; a taken slot or failed check gives the "acabou de ser reservado" message, a failed insert the retry message |
| AppointmentStore.ReservePreservesNoDoubleBooking | src/lib/supabase.ts:71-90 | One guarded insert keeps the table free of two rows with the same (barber, date, slot) |
| AppointmentStore.ReserveOnEmptyTable | src/lib/supabase.ts:72-104 | On an empty table with a working store the booking is confirmed and becomes the only row |
| AppointmentStore.ReserveConflict | src/lib/supabase.ts:72-83 | A triple already on record is refused with the "acabou de ser reservado" message and the table is unchanged |
| AppointmentStore.ReservedSlotIsOccupied | src/lib/supabase.ts:23-61 | After a successful booking its time is listed as occupied for that barber and date and is no longer available |
| AppointmentStore.ReserveAll | src/lib/supabase.ts:66-105 | Sequential calls never remove or alter existing rows and add at most one row per call |
| AppointmentStore.ReserveAllPreservesNoDoubleBooking | src/lib/supabase.ts:71-90 | Under any sequence of single-threaded calls, a table with no double booking still has none |
| AppointmentStore.AppointmentTable.constructor | src/lib/supabase.ts:24-25 | The table starts with the given rows |
| AppointmentStore.AppointmentTable.CreateAppointment | src/lib/supabase.ts:66-105 | Answer and new table are those of `Reserve`: the table grows by exactly the appointment on success and is unchanged otherwise; no double booking is introduced |
| TimeSlots.AvailableTimes | src/app/page.tsx:190 | A time is offered iff it is a canonical time not in the occupied list |
| TimeSlots.AvailableTimesAppend | src/app/page.tsx:190 | The filter distributes over concatenation, so it keeps the canonical order |
| TimeSlots.AvailableTimesIdempotent | src/app/page.tsx:190 | Filtering twice with the same occupied list equals filtering once |
| TimeSlots.AvailableTimesNoneOccupied | src/app/page.tsx:190 | When none of the times is occupied, every one is offered, in order |
| TimeSlots.AvailableTimesPartition | src/app/page.tsx:80-190 | Offered and occupied times are disjoint, and offered plus occupied canonical times are all canonical times |
| TimeSlots.AvailableTimesCount | src/app/page.tsx:190 | On a list without repeats, the offered count plus the occupied count among those times is the list length |
| TimeSlots.FirstTimeTaken | src/app/page.tsx:80-190 | With "09:00" occupied, the other seven times are offered in display order |
| TimeSlots.OfferedCount | src/app/page.tsx:80-190 | The number of offered times is eight minus the number of canonical times that are occupied |
| TimeSlots.CanonicalTimesDistinct | src/app/page.tsx:80 | The eight canonical times are pairwise distinct |
| Booking.AppointmentFor | src/app/page.tsx:146-153 | The submitted record books the draft's professional, date and time for the given client and service |
| Booking.BookingWizard.constructor | src/app/page.tsx:83-91 | Modal closed, first step, empty draft, nothing occupied, no error; the invariant holds |
| Booking.BookingWizard.OpenBooking | src/app/page.tsx:241 | Shows the modal and changes nothing else |
| Booking.BookingWizard.HandleServiceSelect | src/app/page.tsx:120-123 | Sets the service, moves to the professional step, other draft fields unchanged |
| Booking.BookingWizard.HandleProfessionalSelect | src/app/page.tsx:125-128 | Sets the professional, moves to the date and time step, other draft fields unchanged |
| Booking.BookingWizard.SelectDate | src/app/page.tsx:742-745 | For one of the offered dates, only the draft's date changes; a previously chosen time is kept |
| Booking.BookingWizard.HandleDateTimeSelect | src/app/page.tsx:130-133 | Sets date and time together and moves to the contact step, other draft fields unchanged |
| Booking.BookingWizard.ClickTime | src/app/page.tsx:765-771 | The wizard advances to the contact step iff the clicked time is among the offered ones; a disabled (occupied) time changes nothing |
| Booking.BookingWizard.BackToService | src/app/page.tsx:690 | Professional step back to service step, draft untouched |
| Booking.BookingWizard.BackToProfessional | src/app/page.tsx:728 | Date and time step back to professional step, draft untouched |
| Booking.BookingWizard.BackToDateTime | src/app/page.tsx:799 | Contact step back to date and time step, draft untouched |
| Booking.BookingWizard.LoadOccupiedSlots | src/app/page.tsx:108-118 | The occupied list becomes the store's current answer for that barber and date (empty on a failed read) |
| Booking.BookingWizard.RefreshOccupiedSlots | src/app/page.tsx:102-106 | Reloads the occupied list exactly when the draft has a professional id and a date, and leaves it alone otherwise |
| Booking.BookingWizard.HandleContactSubmit | src/app/page.tsx:135-171 | The table changes as `Reserve` dictates; on success the draft gains name and phone, the step is confirmation and the error is cleared; on failure the step stays contact, the draft is unchanged, the error is the returned message and the occupied list is reloaded for the draft's professional and date; no double booking is introduced |
| Booking.BookingWizard.ResetBooking | src/app/page.tsx:173-179 | Empty draft, first step, modal hidden, occupied list and error cleared |
| Booking.FailOpenOffersEveryTime | src/lib/supabase.ts:30-33 | When the occupied-slot read fails, all eight canonical times are offered |
| Booking.OfferedTimesAreFree | src/app/page.tsx:190 | After a successful read, every offered time is free in the table and `isSlotAvailable` confirms it |
| Booking.BookFreeSlotScenario | src/app/page.tsx:120-163 | Booking "09:00" on an empty agenda reaches the confirmation with the full draft, and the table holds exactly that booking |
| Booking.SlotTakenMeanwhileScenario | src/app/page.tsx:130-163 | A slot taken by another client after it was offered is refused: the wizard stays on contact with the "acabou de ser reservado" message and the reloaded list greys the slot out |

## Left out

- Store-assigned `id` and `created_at` columns: the store generates them. The model returns the inserted appointment as given.
- Supabase client construction and its environment variables: deployment configuration of a foreign library. An in-memory table with failure flags replaces them.
- Races between concurrent sessions on the check-then-insert, and async/await interleaving: only single-threaded, sequential calls are modelled. The non-atomic re-check can still admit a double booking when two sessions race.
- React's automatic `useEffect` scheduling and stale responses: the effect is the explicit method `RefreshOccupiedSlots`, called when the draft's professional or date changes.
- `console.error` logging, `FormData` extraction and the HTML `required` attributes. Name and phone are given strings, and the `required` fields become the precondition that both are non-empty.
- The `catch` branch of `handleContactSubmit` is not modelled. The page itself can throw there only by reading `booking.professional!.id` on a missing professional or `booking.service!.id` on a missing service (`booking.date!` and `booking.time!` never throw, since `!` only affects type checking). `Valid()` rules out both on the contact step, through the `Rank(step) >= 1` and `Rank(step) >= 2` clauses of `DraftFitsStep`. Exceptions thrown inside the client library are not modelled.
- The `catch` branch of `loadOccupiedSlots` is not modelled: `fetchOccupiedSlots` reports store errors as values and never throws.
- The `data?.map(...) || []` fallback for a null answer without an error is not modelled: a successful query always carries its rows.
- The `loadingSlots` and `isSubmitting` spinner flags: they only drive the UI.
- All rendering, styling, images, the scroll listener, the mobile menu and `scrollToSection`: presentation and DOM I/O. The professionals' portrait URLs are shortened to their photo ids.
