/**
 * The availability rule both service versions share: which time slots are
 * bookable, and whether a day's timestamp falls on the target date.
 */
module Availability {
  import opened Wrappers
  import opened Ints
  import opened AppointmentModel
  import Iter
  import Calendar

  /** A slot is bookable when both counts are known and `0 < available <= max`. */
  predicate Qualifies(slot: TimeSlot) {
    && slot.availableSlot.Some?
    && slot.maxSlot.Some?
    && 0 < slot.availableSlot.value <= slot.maxSlot.value
  }

  /**
   * The `filter_map(...).collect()` over a shift's slots. Each kept slot is rebuilt
   * with the same two counts and the rest of its fields copied, so it equals the original.
   */
  function QualifyingSlots(slots: seq<TimeSlot>): (r: seq<TimeSlot>)
    ensures forall i :: 0 <= i < |r| ==> Qualifies(r[i]) && r[i] in slots
    ensures forall i :: 0 <= i < |slots| && Qualifies(slots[i]) ==> slots[i] in r
    ensures r == [] <==> forall i :: 0 <= i < |slots| ==> !Qualifies(slots[i])
  {
    Iter.FilterAllOrNone(slots, Qualifies);
    Iter.Filter(slots, Qualifies)
  }

  /** The kept slots keep their input order: filtering a concatenation concatenates the results. */
  lemma QualifyingSlotsAppend(a: seq<TimeSlot>, b: seq<TimeSlot>)
    ensures QualifyingSlots(a + b) == QualifyingSlots(a) + QualifyingSlots(b)
  {
    Iter.FilterAppend(a, b, Qualifies);
  }

  /** A single slot is kept exactly when it qualifies. */
  lemma QualifyingSlotsSingle(s: TimeSlot)
    ensures QualifyingSlots([s]) == if Qualifies(s) then [s] else []
  {
  }


  /** Day-level date test: the timestamp's UTC epoch day is the target's days-from-civil. */
  predicate OnDate(ms: i64, target: Calendar.Date) {
    Calendar.EpochDay(ms as int) == Calendar.DaysFromCivil(target)
  }

  /** `OnDate` is the calendar comparison the source makes on chrono dates. */
  lemma OnDateIsCalendarDate(ms: i64, target: Calendar.Date)
    ensures OnDate(ms, target) <==> Calendar.UtcDate(ms as int) == target
  {
    Calendar.SameUtcDate(ms as int, target);
  }
}
