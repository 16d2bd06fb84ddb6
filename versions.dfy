/**
 * The two service versions side by side: they reach the same verdicts and the
 * same ids from the same candidate, and pick the same slots from the same shift,
 * except that the newer one also records the partner id and panics on a slot
 * without an available count when Info logging is on.
 */
module Versions {
  import opened Wrappers
  import opened Ints
  import opened AppointmentModel
  import opened SearchModel
  import opened Documents
  import opened DoctorMatching
  import MedBotService
  import RootMedService
  import Calendar

  /** The older selector holding the same three ids as a newer one. */
  function WithoutPartner(s: MedBotService.Selector): RootMedService.Selector {
    RootMedService.Selector(s.subjectId, s.doctorId, s.serviceId)
  }

  /**
   * Both versions of `validate_doctor` give the same verdict and resolve the same
   * subject, service and doctor ids; only the newer one writes the partner id, and
   * only when it gets past both list checks and the partner matches.
   */
  lemma ValidationsAgree(item: ResultItem, target: Doctor, before: MedBotService.Selector)
    ensures MedBotService.Validate(item, target, before).valid
      == RootMedService.Validate(item, target, WithoutPartner(before)).valid
    ensures WithoutPartner(MedBotService.Validate(item, target, before).ids)
      == RootMedService.Validate(item, target, WithoutPartner(before)).ids
    ensures MedBotService.Validate(item, target, before).ids.partnerId
      == if !MedBotService.SubjectCheckFails(item, target) && !MedBotService.ServiceCheckFails(item, target)
            && PartnerMatches(item, target)
         then Some(target.hospitalId) else before.partnerId
  {
  }


  /**
   * From the same shift both versions keep the same bookable slots and doctor-change
   * record. The newer version panics only when Info logging is on and a slot lacks its
   * available count, where the older one simply ignores the uncounted slot; in every
   * other case it hits exactly when the older one yields.
   */
  lemma ShiftOutcomesAgree(shift: Shift, doctorName: string, targetDate: string, infoLog: bool,
                           ms: i64, target: Calendar.Date)
    ensures MedBotService.ShiftOutcome(shift, doctorName, targetDate, infoLog).Abort?
      <==> infoLog && shift.timeSlotInDay.Some? && !MedBotService.AllCounted(shift.timeSlotInDay.value)
    ensures !MedBotService.ShiftOutcome(shift, doctorName, targetDate, infoLog).Abort? ==>
      (MedBotService.ShiftOutcome(shift, doctorName, targetDate, infoLog).Hit? <==>
       RootMedService.ShiftOutcome(shift, ms, target).Some?)
    ensures MedBotService.ShiftOutcome(shift, doctorName, targetDate, infoLog).Hit? ==>
      var p := MedBotService.ShiftOutcome(shift, doctorName, targetDate, infoLog).picking;
      var q := RootMedService.ShiftOutcome(shift, ms, target).value;
      p.availableSlot == q.availableSlot && p.doctorChangeInfo == q.doctorChangeInfo
  {
  }

}
