/**
 * The appointments table and the three operations the booking flow uses on it
 * (src/lib/supabase.ts). The hosted table is a sequence of rows; keeping
 * them in insertion order is this model's choice, since the queries promise
 * no row order, and only the membership and multiplicity of their answers
 * are stated. Every store round trip that can fail takes a flag saying whether it
 * failed, so that each outcome of the real call can be studied.
 */
module AppointmentStore {
  import opened Wrappers

  /** One row of the table; `id` and `created_at` are assigned by the store and are not modelled. */
  datatype Appointment = Appointment(
    barberId: string,
    clientName: string,
    clientPhone: string,
    date: string,       // YYYY-MM-DD
    timeSlot: string,   // e.g. "14:00"
    serviceId: string)

  /** What `createAppointment` hands back to the page. */
  datatype CreateResult = CreateResult(success: bool, message: string, data: Option<Appointment>)

  const SlotTakenMessage: string := "Desculpe, este horário acabou de ser reservado. Escolha outro."
  const InsertFailedMessage: string := "Erro ao criar agendamento. Tente novamente."
  const ConfirmedMessage: string := "Agendamento confirmado com sucesso!"

  /** Row `a` books `timeSlot` of barber `barberId` on `date`. */
  predicate HoldsSlot(a: Appointment, barberId: string, date: string, timeSlot: string) {
    a.barberId == barberId && a.date == date && a.timeSlot == timeSlot
  }

  /** No row of the table books the given (barber, date, slot) triple. */
  predicate SlotFree(rows: seq<Appointment>, barberId: string, date: string, timeSlot: string) {
    forall i :: 0 <= i < |rows| ==> !HoldsSlot(rows[i], barberId, date, timeSlot)
  }

  /** The booking domain's uniqueness invariant: no two rows share barber, date and slot. */
  predicate NoDoubleBooking(rows: seq<Appointment>) {
    forall i, j :: 0 <= i < j < |rows| ==> !HoldsSlot(rows[j], rows[i].barberId, rows[i].date, rows[i].timeSlot)
  }

  /** Number of rows booking the triple: the rows `.eq(barber_id).eq(date).eq(time_slot)` selects. */
  function MatchCount(rows: seq<Appointment>, barberId: string, date: string, timeSlot: string): nat {
    if |rows| == 0 then 0
    else
      MatchCount(rows[..|rows| - 1], barberId, date, timeSlot)
        + (if HoldsSlot(rows[|rows| - 1], barberId, date, timeSlot) then 1 else 0)
  }

  lemma {:induction false} MatchCountZero(rows: seq<Appointment>, barberId: string, date: string, timeSlot: string)
    ensures MatchCount(rows, barberId, date, timeSlot) == 0 <==> SlotFree(rows, barberId, date, timeSlot)
  {
    if |rows| > 0 {
      var init := rows[..|rows| - 1];
      MatchCountZero(init, barberId, date, timeSlot);
      assert forall i :: 0 <= i < |init| ==> init[i] == rows[i];
    }
  }

  /**
   * The `time_slot` column of the rows of one barber on one date: the
   * successful answer of `fetchOccupiedSlots`. The order follows the model's
   * row order; the store itself promises none.
   */
  function OccupiedSlots(rows: seq<Appointment>, barberId: string, date: string): (r: seq<string>)
    ensures |r| <= |rows|
    ensures forall t :: t in r <==> exists i :: 0 <= i < |rows| && HoldsSlot(rows[i], barberId, date, t)
  {
    if |rows| == 0 then []
    else
      var init, last := rows[..|rows| - 1], rows[|rows| - 1];
      assert forall i :: 0 <= i < |init| ==> init[i] == rows[i];
      OccupiedSlots(init, barberId, date)
        + (if last.barberId == barberId && last.date == date then [last.timeSlot] else [])
  }

  /** Each slot is listed once per row that books it: duplicates in the table show as repeats. */
  lemma {:induction false} OccupiedSlotsMultiplicity(rows: seq<Appointment>, barberId: string, date: string, timeSlot: string)
    ensures multiset(OccupiedSlots(rows, barberId, date))[timeSlot] == MatchCount(rows, barberId, date, timeSlot)
  {
    if |rows| > 0 {
      OccupiedSlotsMultiplicity(rows[..|rows| - 1], barberId, date, timeSlot);
    }
  }

  /**
   * `fetchOccupiedSlots(barberId, date)`: the booked slots of the barber on
   * the date; when the query reports an error it fails open with `[]`.
   */
  function FetchOccupiedSlots(rows: seq<Appointment>, barberId: string, date: string, queryFails: bool): (r: seq<string>)
    ensures queryFails ==> r == []
    ensures !queryFails ==> forall t :: t in r <==> exists i :: 0 <= i < |rows| && HoldsSlot(rows[i], barberId, date, t)
    ensures !queryFails ==> forall t :: multiset(r)[t] == MatchCount(rows, barberId, date, t)
  {
    if queryFails then []
    else
      var r := OccupiedSlots(rows, barberId, date);
      assert forall t :: multiset(r)[t] == MatchCount(rows, barberId, date, t) by {
        forall t ensures multiset(r)[t] == MatchCount(rows, barberId, date, t) {
          OccupiedSlotsMultiplicity(rows, barberId, date, t);
        }
      }
      r
  }

  /** A table holding one row lists exactly that row's slot for its barber and date. */
  lemma FetchSingleRow(a: Appointment)
    ensures FetchOccupiedSlots([a], a.barberId, a.date, false) == [a.timeSlot]
  {
    assert [a][..0] == [];
  }

  /** Outcome of `.select('id')…maybeSingle()`: no row, exactly one row, or an error. */
  datatype Lookup = Absent | Present | LookupError

  /**
   * The point read of `isSlotAvailable`. `maybeSingle` answers with an error
   * both when the store call fails and when more than one row matches.
   */
  function MaybeSingle(rows: seq<Appointment>, barberId: string, date: string, timeSlot: string, queryFails: bool): (r: Lookup)
    ensures r == Absent <==> !queryFails && SlotFree(rows, barberId, date, timeSlot)
    ensures r == Present <==> !queryFails && MatchCount(rows, barberId, date, timeSlot) == 1
  {
    MatchCountZero(rows, barberId, date, timeSlot);
    var n := MatchCount(rows, barberId, date, timeSlot);
    if queryFails || n > 1 then LookupError
    else if n == 1 then Present
    else Absent
  }

  /**
   * `isSlotAvailable(barberId, date, timeSlot)`: true exactly when the read
   * succeeds and finds no row for the triple; a failed read fails closed.
   */
  function IsSlotAvailable(rows: seq<Appointment>, barberId: string, date: string, timeSlot: string, queryFails: bool): (r: bool)
    ensures r <==> !queryFails && SlotFree(rows, barberId, date, timeSlot)
    ensures queryFails ==> !r
  {
    MaybeSingle(rows, barberId, date, timeSlot, queryFails) == Absent
  }

  /** The answer of `createAppointment` together with the table it leaves behind. */
  datatype Reservation = Reservation(result: CreateResult, rows: seq<Appointment>)

  /**
   * `createAppointment(appt)` on a table: re-check the slot (a read that may
   * fail), then insert (a write that may fail). Exactly one row is appended
   * on success and none otherwise.
   */
  function Reserve(rows: seq<Appointment>, appt: Appointment, checkFails: bool, insertFails: bool): (o: Reservation)
    ensures o.result.success <==> !checkFails && !insertFails && SlotFree(rows, appt.barberId, appt.date, appt.timeSlot)
    ensures o.result.success ==> o.rows == rows + [appt] && o.result == CreateResult(true, ConfirmedMessage, Some(appt))
    ensures !o.result.success ==> o.rows == rows && o.result.data == None
    ensures (checkFails || !SlotFree(rows, appt.barberId, appt.date, appt.timeSlot)) ==> o.result.message == SlotTakenMessage
    ensures (!checkFails && SlotFree(rows, appt.barberId, appt.date, appt.timeSlot) && insertFails) ==> o.result.message == InsertFailedMessage
  {
    if !IsSlotAvailable(rows, appt.barberId, appt.date, appt.timeSlot, checkFails) then
      Reservation(CreateResult(false, SlotTakenMessage, None), rows)
    else if insertFails then
      Reservation(CreateResult(false, InsertFailedMessage, None), rows)
    else
      Reservation(CreateResult(true, ConfirmedMessage, Some(appt)), rows + [appt])
  }

  /** The guard keeps the table free of double bookings. */
  lemma ReservePreservesNoDoubleBooking(rows: seq<Appointment>, appt: Appointment, checkFails: bool, insertFails: bool)
    requires NoDoubleBooking(rows)
    ensures NoDoubleBooking(Reserve(rows, appt, checkFails, insertFails).rows)
  {
    var o := Reserve(rows, appt, checkFails, insertFails);
    if o.result.success {
      forall i, j | 0 <= i < j < |o.rows|
        ensures !HoldsSlot(o.rows[j], o.rows[i].barberId, o.rows[i].date, o.rows[i].timeSlot)
      {
        if j == |rows| {
          assert !HoldsSlot(rows[i], appt.barberId, appt.date, appt.timeSlot);
        }
      }
    }
  }

  /** An empty table always accepts a booking when the store answers. */
  lemma ReserveOnEmptyTable(appt: Appointment)
    ensures Reserve([], appt, false, false) == Reservation(CreateResult(true, ConfirmedMessage, Some(appt)), [appt])
  {
  }

  /** A triple already on record is refused with the "just booked" message and no write. */
  lemma ReserveConflict(rows: seq<Appointment>, k: nat, appt: Appointment, checkFails: bool, insertFails: bool)
    requires k < |rows| && HoldsSlot(rows[k], appt.barberId, appt.date, appt.timeSlot)
    ensures Reserve(rows, appt, checkFails, insertFails) == Reservation(CreateResult(false, SlotTakenMessage, None), rows)
  {
  }

  /** After a successful booking its slot is listed as occupied and is no longer available. */
  lemma ReservedSlotIsOccupied(rows: seq<Appointment>, appt: Appointment, checkFails: bool, insertFails: bool, queryFails: bool)
    requires Reserve(rows, appt, checkFails, insertFails).result.success
    ensures var after := Reserve(rows, appt, checkFails, insertFails).rows;
      && appt.timeSlot in OccupiedSlots(after, appt.barberId, appt.date)
      && !IsSlotAvailable(after, appt.barberId, appt.date, appt.timeSlot, queryFails)
  {
    var after := rows + [appt];
    assert HoldsSlot(after[|rows|], appt.barberId, appt.date, appt.timeSlot);
  }

  /** One call of `createAppointment`, with the outcome of each of its two store round trips. */
  datatype Request = Request(appt: Appointment, checkFails: bool, insertFails: bool)

  /** The table after a sequence of `createAppointment` calls made one after another. */
  function ReserveAll(rows: seq<Appointment>, requests: seq<Request>): (r: seq<Appointment>)
    ensures |rows| <= |r| <= |rows| + |requests|
    ensures r[..|rows|] == rows
    decreases |requests|
  {
    if |requests| == 0 then rows
    else
      var q := requests[0];
      ReserveAll(Reserve(rows, q.appt, q.checkFails, q.insertFails).rows, requests[1..])
  }

  /** Under sequential calls the guard never lets a double booking in. */
  lemma {:induction false} ReserveAllPreservesNoDoubleBooking(rows: seq<Appointment>, requests: seq<Request>)
    requires NoDoubleBooking(rows)
    ensures NoDoubleBooking(ReserveAll(rows, requests))
    decreases |requests|
  {
    if |requests| > 0 {
      var q := requests[0];
      ReservePreservesNoDoubleBooking(rows, q.appt, q.checkFails, q.insertFails);
      ReserveAllPreservesNoDoubleBooking(Reserve(rows, q.appt, q.checkFails, q.insertFails).rows, requests[1..]);
    }
  }

  /** The appointments table: `createAppointment` inserts into it in place. */
  class AppointmentTable {
    var rows: seq<Appointment>

    constructor (initial: seq<Appointment>)
      ensures rows == initial
    {
      rows := initial;
    }

    /** `createAppointment`: check the slot, then insert; the table changes only on success. */
    method CreateAppointment(appt: Appointment, checkFails: bool, insertFails: bool) returns (res: CreateResult)
      modifies this
      ensures Reservation(res, rows) == Reserve(old(rows), appt, checkFails, insertFails)
      ensures res.success ==> rows == old(rows) + [appt]
      ensures !res.success ==> rows == old(rows)
      ensures NoDoubleBooking(old(rows)) ==> NoDoubleBooking(rows)
    {
      var available := IsSlotAvailable(rows, appt.barberId, appt.date, appt.timeSlot, checkFails);
      if !available {
        res := CreateResult(false, SlotTakenMessage, None);
        return;
      }
      if insertFails {
        res := CreateResult(false, InsertFailedMessage, None);
        return;
      }
      rows := rows + [appt];
      res := CreateResult(true, ConfirmedMessage, Some(appt));
      if NoDoubleBooking(old(rows)) {
        ReservePreservesNoDoubleBooking(old(rows), appt, checkFails, insertFails);
      }
    }
  }
}
