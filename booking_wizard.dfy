/**
 * The booking modal of the page (src/app/page.tsx): a four-step wizard
 * (service, professional, date and time, contact) ending in a confirmation,
 * whose handlers update the component's state in place.
 */
module Booking {
  import opened Wrappers
  import opened AppointmentStore
  import opened TimeSlots

  datatype Service = Service(id: string, name: string, duration: string, price: string, description: string)

  datatype Professional = Professional(id: string, name: string, specialty: string, image: string, bio: string)

  datatype Step = ServiceStep | ProfessionalStep | DateTimeStep | ContactStep | ConfirmationStep

  /** The in-progress draft; each field is filled by one step of the wizard. */
  datatype Draft = Draft(
    service: Option<Service>,
    professional: Option<Professional>,
    date: Option<string>,
    time: Option<string>,
    name: Option<string>,
    phone: Option<string>)

  const EmptyDraft: Draft := Draft(None, None, None, None, None, None)

  /** The service catalog shown in the first step. */
  const Services: seq<Service> := [
    Service("1", "Corte Premium", "45min", "R$ 120", "Corte personalizado com acabamento impecável"),
    Service("2", "Barba Clássica", "30min", "R$ 80", "Aparar e modelar com navalha e toalha quente"),
    Service("3", "Combo Executivo", "75min", "R$ 180", "Corte + Barba + Tratamento facial")
  ]

  /** The professionals shown in the second step (portrait URLs shortened to their photo ids). */
  const Professionals: seq<Professional> := [
    Professional("1", "Ricardo Silva", "Especialista em Navalha", "photo-1507003211169-0a1dd7228f2d", "15 anos de experiência em técnicas clássicas"),
    Professional("2", "Carlos Mendes", "Visagismo", "photo-1500648767791-00dcc994a43e", "Especialista em harmonização facial"),
    Professional("3", "André Costa", "Master Barber", "photo-1506794778202-cad84cf45f1d", "Certificado internacional em barbering")
  ]

  /** Position of a step in the wizard. */
  function Rank(s: Step): nat {
    match s
    case ServiceStep => 0
    case ProfessionalStep => 1
    case DateTimeStep => 2
    case ContactStep => 3
    case ConfirmationStep => 4
  }

  /**
   * What the handlers guarantee about the draft at each step: every step past
   * one has that step's fields, and client data exists only once confirmed.
   */
  predicate DraftFitsStep(step: Step, d: Draft) {
    && (Rank(step) >= 1 ==> d.service.Some?)
    && (Rank(step) >= 2 ==> d.professional.Some?)
    && (Rank(step) >= 3 ==> d.date.Some? && d.time.Some?)
    && (d.name.Some? <==> step == ConfirmationStep)
    && (d.phone.Some? <==> step == ConfirmationStep)
  }

  /** The record `handleContactSubmit` hands to `createAppointment`. */
  function AppointmentFor(d: Draft, name: string, phone: string): (a: Appointment)
    requires d.service.Some? && d.professional.Some? && d.date.Some? && d.time.Some?
    ensures HoldsSlot(a, d.professional.value.id, d.date.value, d.time.value)
    ensures a.clientName == name && a.clientPhone == phone && a.serviceId == d.service.value.id
  {
    Appointment(d.professional.value.id, name, phone, d.date.value, d.time.value, d.service.value.id)
  }

  /** The booking component's state and its handlers. */
  class BookingWizard {
    var showBooking: bool
    var currentStep: Step
    var booking: Draft
    var occupiedSlots: seq<string>
    var bookingError: Option<string>
    const store: AppointmentTable

    /** Reachable states: the draft fits the step, and a hidden modal holds a fresh wizard. */
    ghost predicate Valid()
      reads this
    {
      && DraftFitsStep(currentStep, booking)
      && (!showBooking ==> currentStep == ServiceStep && booking == EmptyDraft && bookingError == None)
    }

    /** The component's initial state. */
    constructor (store: AppointmentTable)
      ensures Valid() && this.store == store
      ensures !showBooking && currentStep == ServiceStep && booking == EmptyDraft
      ensures occupiedSlots == [] && bookingError == None
    {
      this.store := store;
      showBooking := false;
      currentStep := ServiceStep;
      booking := EmptyDraft;
      occupiedSlots := [];
      bookingError := None;
    }

    /** The "book" buttons of the page: `setShowBooking(true)`. */
    method OpenBooking()
      requires Valid()
      modifies this`showBooking
      ensures Valid() && showBooking
    {
      showBooking := true;
    }

    /** `handleServiceSelect`: record the service and go to the professional step. */
    method HandleServiceSelect(service: Service)
      requires Valid() && showBooking && currentStep == ServiceStep
      modifies this`booking, this`currentStep
      ensures Valid()
      ensures booking == old(booking).(service := Some(service))
      ensures currentStep == ProfessionalStep
    {
      booking := booking.(service := Some(service));
      currentStep := ProfessionalStep;
    }

    /** `handleProfessionalSelect`: record the professional and go to the date and time step. */
    method HandleProfessionalSelect(professional: Professional)
      requires Valid() && showBooking && currentStep == ProfessionalStep
      modifies this`booking, this`currentStep
      ensures Valid()
      ensures booking == old(booking).(professional := Some(professional))
      ensures currentStep == DateTimeStep
    {
      booking := booking.(professional := Some(professional));
      currentStep := DateTimeStep;
    }

    /** A date button, one per offered date: only the date changes; a time chosen earlier is kept. */
    method SelectDate(date: string)
      requires Valid() && showBooking && currentStep == DateTimeStep
      requires date in AvailableDates
      modifies this`booking
      ensures Valid()
      ensures booking == old(booking).(date := Some(date))
      ensures booking.time == old(booking.time)
    {
      booking := booking.(date := Some(date));
    }

    /** `handleDateTimeSelect`: record date and time together and go to the contact step. */
    method HandleDateTimeSelect(date: string, time: string)
      requires Valid() && showBooking && currentStep == DateTimeStep
      modifies this`booking, this`currentStep
      ensures Valid()
      ensures booking == old(booking).(date := Some(date), time := Some(time))
      ensures currentStep == ContactStep
    {
      booking := booking.(date := Some(date), time := Some(time));
      currentStep := ContactStep;
    }

    /**
     * A time button: shown once a date is chosen, one per canonical time; an
     * occupied one is disabled, any other calls `handleDateTimeSelect`.
     */
    method ClickTime(time: string)
      requires Valid() && showBooking && currentStep == DateTimeStep
      requires booking.date.Some? && time in AllAvailableTimes
      modifies this`booking, this`currentStep
      ensures Valid()
      ensures currentStep == ContactStep <==> time in AvailableTimes(AllAvailableTimes, occupiedSlots)
      ensures currentStep == ContactStep ==> booking == old(booking).(time := Some(time))
      ensures currentStep != ContactStep ==> booking == old(booking) && currentStep == DateTimeStep
    {
      if time !in occupiedSlots {
        HandleDateTimeSelect(booking.date.value, time);
      }
    }

    /** The three "← Voltar" buttons: one step back, draft untouched. */
    method BackToService()
      requires Valid() && showBooking && currentStep == ProfessionalStep
      modifies this`currentStep
      ensures Valid() && currentStep == ServiceStep
    {
      currentStep := ServiceStep;
    }

    method BackToProfessional()
      requires Valid() && showBooking && currentStep == DateTimeStep
      modifies this`currentStep
      ensures Valid() && currentStep == ProfessionalStep
    {
      currentStep := ProfessionalStep;
    }

    method BackToDateTime()
      requires Valid() && showBooking && currentStep == ContactStep
      modifies this`currentStep
      ensures Valid() && currentStep == DateTimeStep
    {
      currentStep := DateTimeStep;
    }

    /** `loadOccupiedSlots`: replace the occupied list by the store's current answer. */
    method LoadOccupiedSlots(barberId: string, date: string, queryFails: bool)
      requires Valid()
      modifies this`occupiedSlots
      ensures Valid()
      ensures occupiedSlots == FetchOccupiedSlots(store.rows, barberId, date, queryFails)
    {
      occupiedSlots := FetchOccupiedSlots(store.rows, barberId, date, queryFails);
    }

    /** The effect run when the professional or the date changes: reload once both are known. */
    method RefreshOccupiedSlots(queryFails: bool)
      requires Valid()
      modifies this`occupiedSlots
      ensures Valid()
      ensures if booking.professional.Some? && booking.professional.value.id != "" && booking.date.Some? && booking.date.value != ""
              then occupiedSlots == FetchOccupiedSlots(store.rows, booking.professional.value.id, booking.date.value, queryFails)
              else occupiedSlots == old(occupiedSlots)
    {
      if booking.professional.Some? && booking.professional.value.id != "" && booking.date.Some? && booking.date.value != "" {
        LoadOccupiedSlots(booking.professional.value.id, booking.date.value, queryFails);
      }
    }

    /**
     * `handleContactSubmit`: book the draft's slot through the conflict guard.
     * On success the client data joins the draft and the wizard confirms; on
     * failure it stays on the contact step, shows the guard's message and
     * reloads the occupied slots of the draft's professional and date.
     */
    method HandleContactSubmit(name: string, phone: string, checkFails: bool, insertFails: bool, reloadFails: bool)
      requires Valid() && showBooking && currentStep == ContactStep
      requires name != "" && phone != ""
      modifies this`booking, this`currentStep, this`bookingError, this`occupiedSlots, store
      ensures Valid() && showBooking
      ensures var o := Reserve(old(store.rows), AppointmentFor(old(booking), name, phone), checkFails, insertFails);
        && store.rows == o.rows
        && (o.result.success ==>
              && currentStep == ConfirmationStep
              && booking == old(booking).(name := Some(name), phone := Some(phone))
              && bookingError == None
              && occupiedSlots == old(occupiedSlots))
        && (!o.result.success ==>
              && currentStep == ContactStep
              && booking == old(booking)
              && bookingError == Some(o.result.message)
              && occupiedSlots == (if booking.professional.value.id != "" && booking.date.value != ""
                                   then FetchOccupiedSlots(store.rows, booking.professional.value.id, booking.date.value, reloadFails)
                                   else old(occupiedSlots)))
      ensures NoDoubleBooking(old(store.rows)) ==> NoDoubleBooking(store.rows)
    {
      bookingError := None;
      var appt := AppointmentFor(booking, name, phone);
      var result := store.CreateAppointment(appt, checkFails, insertFails);
      if result.success {
        booking := booking.(name := Some(name), phone := Some(phone));
        currentStep := ConfirmationStep;
      } else {
        bookingError := Some(result.message);
        if booking.professional.value.id != "" && booking.date.value != "" {
          LoadOccupiedSlots(booking.professional.value.id, booking.date.value, reloadFails);
        }
      }
    }

    /** `resetBooking` (the "×" and "Fechar" buttons): close the modal and start over. */
    method ResetBooking()
      modifies this`booking, this`currentStep, this`showBooking, this`occupiedSlots, this`bookingError
      ensures Valid()
      ensures booking == EmptyDraft && currentStep == ServiceStep && !showBooking
      ensures occupiedSlots == [] && bookingError == None
    {
      booking := EmptyDraft;
      currentStep := ServiceStep;
      showBooking := false;
      occupiedSlots := [];
      bookingError := None;
    }
  }

  /** When the occupied-slot read fails, the wizard fails open and offers all eight times. */
  lemma FailOpenOffersEveryTime(rows: seq<Appointment>, barberId: string, date: string)
    ensures AvailableTimes(AllAvailableTimes, FetchOccupiedSlots(rows, barberId, date, true)) == AllAvailableTimes
  {
    AvailableTimesNoneOccupied(AllAvailableTimes, []);
  }

  /** When the read succeeds, every time offered is free in the table for that professional and date. */
  lemma OfferedTimesAreFree(rows: seq<Appointment>, barberId: string, date: string, t: string)
    requires t in AvailableTimes(AllAvailableTimes, FetchOccupiedSlots(rows, barberId, date, false))
    ensures SlotFree(rows, barberId, date, t)
    ensures IsSlotAvailable(rows, barberId, date, t, false)
  {
  }

  /** The visitor picks the first service, the first professional, 2024-02-15 and 09:00 on an empty agenda. */
  method WalkToContact(table: AppointmentTable) returns (wizard: BookingWizard)
    requires table.rows == []
    ensures fresh(wizard) && wizard.Valid() && wizard.store == table && wizard.showBooking
    ensures wizard.currentStep == ContactStep
    ensures wizard.booking == Draft(Some(Services[0]), Some(Professionals[0]), Some("2024-02-15"), Some("09:00"), None, None)
  {
    wizard := new BookingWizard(table);
    wizard.OpenBooking();
    wizard.HandleServiceSelect(Services[0]);
    wizard.HandleProfessionalSelect(Professionals[0]);
    wizard.SelectDate("2024-02-15");
    wizard.RefreshOccupiedSlots(false);
    assert wizard.occupiedSlots == [];
    wizard.ClickTime("09:00");
  }

  /**
   * A visitor books the first time of an empty agenda: the wizard reaches the
   * confirmation with the whole draft, and the table holds exactly that booking.
   */
  method BookFreeSlotScenario() returns (step: Step, draft: Draft, rows: seq<Appointment>)
    ensures step == ConfirmationStep
    ensures draft == Draft(Some(Services[0]), Some(Professionals[0]), Some("2024-02-15"), Some("09:00"), Some("Ana Silva"), Some("11999990000"))
    ensures rows == [Appointment("1", "Ana Silva", "11999990000", "2024-02-15", "09:00", "1")]
  {
    var table := new AppointmentTable([]);
    var wizard := WalkToContact(table);
    wizard.HandleContactSubmit("Ana Silva", "11999990000", false, false, false);
    step, draft, rows := wizard.currentStep, wizard.booking, table.rows;
  }

  /**
   * Another client takes the slot after the wizard listed it as free: the
   * guard refuses the second booking, the wizard stays on the contact step
   * with the "just booked" message, and the reloaded list greys the slot out.
   */
  method SlotTakenMeanwhileScenario() returns (step: Step, error: Option<string>, occupied: seq<string>, rows: seq<Appointment>)
    ensures step == ContactStep
    ensures error == Some(SlotTakenMessage)
    ensures occupied == ["09:00"] && AvailableTimes(AllAvailableTimes, occupied) == AllAvailableTimes[1..]
    ensures rows == [Appointment("1", "Bruno Lima", "11988880000", "2024-02-15", "09:00", "2")]
  {
    var table := new AppointmentTable([]);
    var wizard := WalkToContact(table);
    var other := Appointment("1", "Bruno Lima", "11988880000", "2024-02-15", "09:00", "2");
    var _ := table.CreateAppointment(other, false, false);
    assert table.rows == [other];
    var mine := AppointmentFor(wizard.booking, "Ana Silva", "11999990000");
    ReserveConflict([other], 0, mine, false, false);
    FetchSingleRow(other);
    wizard.HandleContactSubmit("Ana Silva", "11999990000", false, false, false);
    step, error, occupied, rows := wizard.currentStep, wizard.bookingError, wizard.occupiedSlots, table.rows;
    FirstTimeTaken();
  }
}
