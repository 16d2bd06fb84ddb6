/**
 * The decision engine of the `med-bot-service` crate
 * (med-bot-service/src/services/med_service.rs): validate the first search hit
 * against the stored target, scan the fetched appointment tree for a bookable
 * shift on the target date, and e-mail the outcome.
 *
 * The database lookup, the two HTTP calls and the mail delivery are inputs;
 * the calls the run makes are recorded in a ghost trace. A Rust panic
 * (`unwrap` on `None`) is an explicit outcome.
 */
module MedBotService {
  import opened Wrappers
  import opened Ints
  import opened AppointmentModel
  import opened SearchModel
  import opened Documents
  import opened DoctorMatching
  import opened Availability
  import opened Text
  import Calendar
  import Iter

  // ---------------------------------------------------------------------------
  // Records

  /** The identifiers `validate_doctor` resolves; each stays as it was until a check records it. */
  datatype Selector = Selector(
    subjectId: Option<string>,
    doctorId: Option<string>,
    serviceId: Option<string>,
    partnerId: Option<string>)

  /** `DoctorAppointment::default()`. */
  const Unset := Selector(None, None, None, None)

  /** The outcome record handed to the mailer. */
  datatype AppointmentPicking = AppointmentPicking(
    doctorName: Option<string>,
    appointmentDay: Option<string>,
    appointmentDate: Option<string>,
    availableSlot: Option<seq<TimeSlot>>,
    doctorChangeInfo: Option<DoctorChangeInfo>)

  /** Where the source panics. */
  datatype Panic =
    | MissingId              // `unwrap` of a resolved id before the appointment fetch
    | UnparsableTargetDate   // `unwrap` of the target-date parse, once per scanned day
    | MissingAvailableSlot   // `unwrap` of a slot's available count in the scan's log line

  /** One step of a `find_map`: a value, nothing yet, or a panic that ends the run. */
  datatype Scan = Hit(picking: AppointmentPicking) | Miss | Abort(panic: Panic)

  /** Errors `analyze_appointment` returns. */
  datatype Failure =
    | LookupFailed(message: string)   // the target lookup's error, propagated
    | SearchFailed(message: string)   // the search call's error, propagated
    | InvalidDoctor                   // "Invalid doctor"
    | FetchFailed(message: string)    // the appointment call's error, propagated
    | MailFailed(message: string)     // the mailer's error, propagated
    | AnalyzeFailed                   // "Analyze appointment fail"

  datatype RunResult = Done(picking: AppointmentPicking) | Failed(failure: Failure) | Panicked(panic: Panic)

  /** The external calls one run makes, in order. */
  datatype Call =
    | SearchMed(searchKey: string, cityId: string, subjectId: string)
    | GetAppointments(subjectId: string, doctorId: string, serviceId: string, partnerId: string)
    | SendEmail(picking: AppointmentPicking)

  datatype Run = Run(result: RunResult, calls: seq<Call>)

  // ---------------------------------------------------------------------------
  // Identity validation

  /** A present subject list in which no subject matches: `validate_doctor` returns false at once. */
  predicate SubjectCheckFails(item: ResultItem, target: Doctor) {
    item.subjects.Some? && FindSubject(item.subjects.value, target).None?
  }

  /** A present service list in which no service matches: `validate_doctor` returns false at once. */
  predicate ServiceCheckFails(item: ResultItem, target: Doctor) {
    item.services.Some? && FindService(item.services.value, target).None?
  }

  datatype Validation = Validation(valid: bool, ids: Selector)

  /**
   * What `validate_doctor` returns and leaves in the selector it was given (`before`).
   * The name and partner verdicts are ANDed at the end; a failed subject or service
   * lookup returns false on the spot, before the partner and doctor ids are written.
   */
  function Validate(item: ResultItem, target: Doctor, before: Selector): Validation
  {
    var nameValid := NameMatches(item, target);
    var subjectFound := if item.subjects.Some? then FindSubject(item.subjects.value, target) else None;
    if item.subjects.Some? && subjectFound.None? then Validation(false, before)
    else
      var s1 := if subjectFound.Some? then before.(subjectId := Some(subjectFound.value.id)) else before;
      var serviceFound := if item.services.Some? then FindService(item.services.value, target) else None;
      if item.services.Some? && serviceFound.None? then Validation(false, s1)
      else
        var s2 := if serviceFound.Some? then s1.(serviceId := Some(serviceFound.value.id)) else s1;
        var partnerValid := PartnerMatches(item, target);
        var s3 := if partnerValid then s2.(partnerId := item.partner.value.partnerId) else s2;
        Validation(nameValid && partnerValid, s3.(doctorId := item.id))
  }

  /**
   * The verdict is the conjunction of the name check, the partner check and both list
   * checks; a failed list check returns before the later ids are written, and each
   * check that passes records the id it resolved.
   */
  lemma ValidateSpec(item: ResultItem, target: Doctor, before: Selector)
    ensures Validate(item, target, before).valid <==>
      NameMatches(item, target) && PartnerMatches(item, target)
      && !SubjectCheckFails(item, target) && !ServiceCheckFails(item, target)
    ensures SubjectCheckFails(item, target) ==> Validate(item, target, before).ids == before
    ensures !SubjectCheckFails(item, target) ==>
      Validate(item, target, before).ids.subjectId
        == if item.subjects.Some? then Some(FindSubject(item.subjects.value, target).value.id) else before.subjectId
    ensures !SubjectCheckFails(item, target) && ServiceCheckFails(item, target) ==>
      Validate(item, target, before).ids == before.(subjectId := Validate(item, target, before).ids.subjectId)
    ensures !SubjectCheckFails(item, target) && !ServiceCheckFails(item, target) ==>
      && Validate(item, target, before).ids.serviceId
           == (if item.services.Some? then Some(FindService(item.services.value, target).value.id) else before.serviceId)
      && Validate(item, target, before).ids.partnerId
           == (if PartnerMatches(item, target) then Some(target.hospitalId) else before.partnerId)
      && Validate(item, target, before).ids.doctorId == item.id
  {
  }

  /** The selector `validate_doctor` fills in place. */
  class DoctorAppointment {
    var subjectId: Option<string>
    var doctorId: Option<string>
    var serviceId: Option<string>
    var partnerId: Option<string>

    /** `DoctorAppointment::default()`: every id unset. */
    constructor ()
      ensures Ids() == Unset
    {
      subjectId, doctorId, serviceId, partnerId := None, None, None, None;
    }

    function Ids(): Selector
      reads this
    {
      Selector(subjectId, doctorId, serviceId, partnerId)
    }
  }

  // ---------------------------------------------------------------------------
  // Availability scan

  /** Every slot carries an available count, so the scan's log line does not panic. */
  predicate AllCounted(slots: seq<TimeSlot>) {
    forall i :: 0 <= i < |slots| ==> slots[i].availableSlot.Some?
  }

  /** The found outcome for one shift's bookable slots. */
  function FoundPicking(shift: Shift, slots: seq<TimeSlot>, doctorName: string, targetDate: string): AppointmentPicking {
    AppointmentPicking(Some(doctorName), shift.days, Some(targetDate), Some(slots), shift.doctorChangeInfo)
  }

  /**
   * The closure `find_map` applies to each shift: skip a shift without slots, hit when
   * some slot is bookable. The `unwrap` of each slot's available count sits in the
   * arguments of a `log::info!` line, which are evaluated only when the logger admits
   * Info (`infoLog`, the crate's default filter); then an uncounted slot panics.
   */
  function ShiftOutcome(shift: Shift, doctorName: string, targetDate: string, infoLog: bool): Scan
  {
    match shift.timeSlotInDay
    case None => Miss
    case Some(slots) =>
      if infoLog && !AllCounted(slots) then Abort(MissingAvailableSlot)
      else
        var available := QualifyingSlots(slots);
        if available != [] then Hit(FoundPicking(shift, available, doctorName, targetDate)) else Miss
  }

  /** `shifts.iter().find_map(...)`: the outcome of the first shift that does not miss. */
  function ScanShifts(shifts: seq<Shift>, doctorName: string, targetDate: string, infoLog: bool): Scan
  {
    var k := Iter.Position(shifts, (s: Shift) => !ShiftOutcome(s, doctorName, targetDate, infoLog).Miss?);
    if k < |shifts| then ShiftOutcome(shifts[k], doctorName, targetDate, infoLog) else Miss
  }

  /**
   * `find_available_shift`: parse the target date (panicking when it does not parse),
   * then miss unless the day's timestamp falls on that UTC date, else scan the shifts.
   */
  function FindAvailableShift(day: Day, doctorName: string, targetDate: string,
                              parseDate: string -> Option<Calendar.Date>, infoLog: bool): Scan
  {
    match parseDate(targetDate)
    case None => Abort(UnparsableTargetDate)
    case Some(target) =>
      match day.date
      case None => Miss
      case Some(ms) =>
        if OnDate(ms, target) then ScanShifts(day.shifts, doctorName, targetDate, infoLog) else Miss
  }

  /** `days.iter().find_map(...)`: the outcome of the first day that does not miss. */
  function ScanDays(days: seq<Day>, doctorName: string, targetDate: string,
                    parseDate: string -> Option<Calendar.Date>, infoLog: bool): Scan
  {
    var k := Iter.Position(days, (d: Day) => !FindAvailableShift(d, doctorName, targetDate, parseDate, infoLog).Miss?);
    if k < |days| then FindAvailableShift(days[k], doctorName, targetDate, parseDate, infoLog) else Miss
  }

  /**
   * A shift without slots misses; with Info logging on, a shift with a slot lacking its
   * available count panics; otherwise it hits exactly when some slot is bookable,
   * carrying all bookable slots.
   */
  lemma ShiftOutcomeSpec(shift: Shift, doctorName: string, targetDate: string, infoLog: bool)
    ensures var r := ShiftOutcome(shift, doctorName, targetDate, infoLog);
      && (r.Hit? <==>
            && shift.timeSlotInDay.Some? && (infoLog ==> AllCounted(shift.timeSlotInDay.value))
            && exists i :: 0 <= i < |shift.timeSlotInDay.value| && Qualifies(shift.timeSlotInDay.value[i]))
      && (r.Abort? <==> infoLog && shift.timeSlotInDay.Some? && !AllCounted(shift.timeSlotInDay.value))
      && (r.Abort? ==> r.panic == MissingAvailableSlot)
      && (r.Hit? ==> r.picking == FoundPicking(shift, QualifyingSlots(shift.timeSlotInDay.value), doctorName, targetDate))
  {
  }


  /** The shift scan misses only when every shift misses, and otherwise is the first shift that does not. */
  lemma ScanShiftsSpec(shifts: seq<Shift>, doctorName: string, targetDate: string, infoLog: bool)
    ensures var r := ScanShifts(shifts, doctorName, targetDate, infoLog);
      && (r.Miss? <==> forall i :: 0 <= i < |shifts| ==> ShiftOutcome(shifts[i], doctorName, targetDate, infoLog).Miss?)
      && (!r.Miss? ==>
            exists i :: 0 <= i < |shifts| && r == ShiftOutcome(shifts[i], doctorName, targetDate, infoLog)
              && forall j :: 0 <= j < i ==> ShiftOutcome(shifts[j], doctorName, targetDate, infoLog).Miss?)
  {
  }

  /**
   * An unparsable target date panics on every day scanned; otherwise a day is scanned
   * exactly when its timestamp falls on the target's UTC calendar date.
   */
  lemma FindAvailableShiftSpec(day: Day, doctorName: string, targetDate: string,
                               parseDate: string -> Option<Calendar.Date>, infoLog: bool)
    ensures var r := FindAvailableShift(day, doctorName, targetDate, parseDate, infoLog);
      && (parseDate(targetDate).None? ==> r == Abort(UnparsableTargetDate))
      && (parseDate(targetDate).Some? && day.date.None? ==> r == Miss)
      && (parseDate(targetDate).Some? && day.date.Some? ==>
            r == if Calendar.UtcDate(day.date.value as int) == parseDate(targetDate).value
                 then ScanShifts(day.shifts, doctorName, targetDate, infoLog) else Miss)
  {
    if parseDate(targetDate).Some? && day.date.Some? {
      OnDateIsCalendarDate(day.date.value, parseDate(targetDate).value);
    }
  }

  /** The day scan misses only when every day misses, and otherwise is the first day that does not. */
  lemma ScanDaysSpec(days: seq<Day>, doctorName: string, targetDate: string,
                     parseDate: string -> Option<Calendar.Date>, infoLog: bool)
    ensures var r := ScanDays(days, doctorName, targetDate, parseDate, infoLog);
      && (r.Miss? <==> forall i :: 0 <= i < |days| ==> FindAvailableShift(days[i], doctorName, targetDate, parseDate, infoLog).Miss?)
      && (!r.Miss? ==>
            exists i :: 0 <= i < |days| && r == FindAvailableShift(days[i], doctorName, targetDate, parseDate, infoLog)
              && forall j :: 0 <= j < i ==> FindAvailableShift(days[j], doctorName, targetDate, parseDate, infoLog).Miss?)
  {
  }

  /**
   * A day that yields a picking lies on the target's UTC date, and the picking is the
   * first non-missing shift's: the doctor name and the target date as given, that
   * shift's `days` and doctor-change record, and its bookable slots, which are not empty.
   */
  lemma FoundDayPicking(day: Day, doctorName: string, targetDate: string,
                        parseDate: string -> Option<Calendar.Date>, infoLog: bool, p: AppointmentPicking)
    requires FindAvailableShift(day, doctorName, targetDate, parseDate, infoLog) == Hit(p)
    ensures parseDate(targetDate).Some? && day.date.Some?
    ensures Calendar.UtcDate(day.date.value as int) == parseDate(targetDate).value
    ensures p.doctorName == Some(doctorName) && p.appointmentDate == Some(targetDate)
    ensures p.availableSlot.Some? && p.availableSlot.value != []
    ensures forall i :: 0 <= i < |p.availableSlot.value| ==> Qualifies(p.availableSlot.value[i])
    ensures exists k ::
      && 0 <= k < |day.shifts|
      && day.shifts[k].timeSlotInDay.Some?
      && p == FoundPicking(day.shifts[k], QualifyingSlots(day.shifts[k].timeSlotInDay.value), doctorName, targetDate)
      && (forall j :: 0 <= j < k ==> ShiftOutcome(day.shifts[j], doctorName, targetDate, infoLog).Miss?)
  {
    FindAvailableShiftSpec(day, doctorName, targetDate, parseDate, infoLog);
    ScanShiftsSpec(day.shifts, doctorName, targetDate, infoLog);
    var k :| 0 <= k < |day.shifts| && Hit(p) == ShiftOutcome(day.shifts[k], doctorName, targetDate, infoLog)
      && forall j :: 0 <= j < k ==> ShiftOutcome(day.shifts[j], doctorName, targetDate, infoLog).Miss?;
    ShiftOutcomeSpec(day.shifts[k], doctorName, targetDate, infoLog);
  }

  // ---------------------------------------------------------------------------
  // Run orchestration

  /** The not-found outcome: only the doctor name and the requested date. */
  function NotFoundPicking(target: Doctor): AppointmentPicking {
    AppointmentPicking(Some(target.doctorName), None, Some(target.targetDate), None, None)
  }

  /** All four ids the appointment fetch unwraps are present. */
  predicate Complete(ids: Selector) {
    ids.subjectId.Some? && ids.doctorId.Some? && ids.serviceId.Some? && ids.partnerId.Some?
  }

  /** The e-mails a trace sends: the pickings of its `SendEmail` calls, in trace order. */
  function Emails(calls: seq<Call>): (r: seq<AppointmentPicking>)
    ensures forall p :: p in r <==> SendEmail(p) in calls
  {
    if calls == [] then []
    else (if calls[0].SendEmail? then [calls[0].picking] else []) + Emails(calls[1..])
  }

  /** Send the outcome and report it, or the mailer's error. */
  function Notify(picking: AppointmentPicking, mail: Result<(), string>, calls: seq<Call>): Run {
    Run(if mail.Ok? then Done(picking) else Failed(MailFailed(mail.error)), calls + [SendEmail(picking)])
  }

  /** The search request `analyze_appointment` sends for a target. */
  function SearchCall(doctor: Doctor): Call {
    SearchMed(doctor.doctorName, doctor.cityId, doctor.subjectRefId)
  }

  /** The appointment request built from the resolved ids. */
  function FetchCall(ids: Selector): Call
    requires Complete(ids)
  {
    GetAppointments(ids.subjectId.value, ids.doctorId.value, ids.serviceId.value, ids.partnerId.value)
  }

  /**
   * `analyze_appointment` on the given collaborator results: `lookup` is the target
   * lookup, `search` the search response, `appointments` the appointment response,
   * `mail` the mailer's answer, `parseDate` chrono's `%Y-%m-%d` parser and `infoLog`
   * whether the logger admits Info-level records.
   */
  function Analyze(lookup: Result<Option<Doctor>, string>, search: Result<seq<SearchApiResponse>, string>,
                   appointments: Result<AppointmentApiResponse, string>, mail: Result<(), string>,
                   parseDate: string -> Option<Calendar.Date>, infoLog: bool): Run
  {
    match lookup
    case Err(e) => Run(Failed(LookupFailed(e)), [])
    case Ok(None) => Run(Failed(AnalyzeFailed), [])
    case Ok(Some(doctor)) => AnalyzeTarget(doctor, search, appointments, mail, parseDate, infoLog)
  }

  /** The run once a target was found: search, then pick the first hit of the first group. */
  function AnalyzeTarget(doctor: Doctor, search: Result<seq<SearchApiResponse>, string>,
                         appointments: Result<AppointmentApiResponse, string>, mail: Result<(), string>,
                         parseDate: string -> Option<Calendar.Date>, infoLog: bool): Run
  {
    match search
    case Err(e) => Run(Failed(SearchFailed(e)), [SearchCall(doctor)])
    case Ok(groups) =>
      if groups == [] || groups[0].results == [] then Run(Failed(AnalyzeFailed), [SearchCall(doctor)])
      else AnalyzeCandidate(doctor, groups[0].results[0], appointments, mail, parseDate, infoLog)
  }

  /** The run once a candidate was picked: validate it, then unwrap the four ids. */
  function AnalyzeCandidate(doctor: Doctor, item: ResultItem,
                            appointments: Result<AppointmentApiResponse, string>, mail: Result<(), string>,
                            parseDate: string -> Option<Calendar.Date>, infoLog: bool): Run
  {
    var v := Validate(item, doctor, Unset);
    if !v.valid then Run(Failed(InvalidDoctor), [SearchCall(doctor)])
    else if !Complete(v.ids) then Run(Panicked(MissingId), [SearchCall(doctor)])
    else AnalyzeFetched(doctor, v.ids, appointments, mail, parseDate, infoLog)
  }

  /** The run after validation succeeded with every id resolved: fetch, scan, notify. */
  function AnalyzeFetched(doctor: Doctor, ids: Selector, appointments: Result<AppointmentApiResponse, string>,
                          mail: Result<(), string>, parseDate: string -> Option<Calendar.Date>, infoLog: bool): Run
    requires Complete(ids)
  {
    var fetched := [SearchCall(doctor), FetchCall(ids)];
    match appointments
    case Err(e) => Run(Failed(FetchFailed(e)), fetched)
    case Ok(response) =>
      match ScanDays(response.days, doctor.doctorName, doctor.targetDate, parseDate, infoLog)
      case Abort(p) => Run(Panicked(p), fetched)
      case Hit(picking) => Notify(picking, mail, fetched)
      case Miss => Notify(NotFoundPicking(doctor), mail, fetched)
  }

  /**
   * Past validation, the run panics exactly when the day scan does, and then sends no
   * e-mail; otherwise the
   * run mails and reports the first day's picking, or the not-found picking when every
   * day misses. With no days at all nothing is parsed, so even an unparsable target
   * date reaches the not-found notification.
   */
  lemma AnalyzeFetchedOutcome(doctor: Doctor, ids: Selector, response: AppointmentApiResponse,
                              mail: Result<(), string>, parseDate: string -> Option<Calendar.Date>, infoLog: bool)
    requires Complete(ids)
    ensures var r := AnalyzeFetched(doctor, ids, Ok(response), mail, parseDate, infoLog);
      && (r.result.Panicked? <==> ScanDays(response.days, doctor.doctorName, doctor.targetDate, parseDate, infoLog).Abort?)
      && (r.result.Panicked? ==> r.calls == [SearchCall(doctor), FetchCall(ids)])
      && (response.days != [] && parseDate(doctor.targetDate).None? ==> r.result == Panicked(UnparsableTargetDate))
      && (response.days == [] ==> r == Notify(NotFoundPicking(doctor), mail, [SearchCall(doctor), FetchCall(ids)]))
      && (!r.result.Panicked? ==>
            && |r.calls| == 3 && r.calls[..2] == [SearchCall(doctor), FetchCall(ids)] && r.calls[2].SendEmail?
            && (r.result.Done? <==> mail.Ok?)
            && (r.result.Done? ==> r.result.picking == r.calls[2].picking)
            && (mail.Err? ==> r.result == Failed(MailFailed(mail.error)))
            && ((forall i :: 0 <= i < |response.days| ==>
                   FindAvailableShift(response.days[i], doctor.doctorName, doctor.targetDate, parseDate, infoLog).Miss?)
                ==> r.calls[2].picking == NotFoundPicking(doctor))
            && ((exists i :: 0 <= i < |response.days| &&
                   !FindAvailableShift(response.days[i], doctor.doctorName, doctor.targetDate, parseDate, infoLog).Miss?)
                ==> exists i :: 0 <= i < |response.days|
                      && FindAvailableShift(response.days[i], doctor.doctorName, doctor.targetDate, parseDate, infoLog)
                           == Hit(r.calls[2].picking)
                      && forall j :: 0 <= j < i ==>
                           FindAvailableShift(response.days[j], doctor.doctorName, doctor.targetDate, parseDate, infoLog).Miss?))
  {
  }


  /** Runs that report a result or a mail error sent exactly one e-mail; every other run sent none. */
  function EmailsSentBy(result: RunResult): nat {
    if result.Done? || (result.Failed? && result.failure.MailFailed?) then 1 else 0
  }

  /** The e-mails of two traces run one after the other are the first's followed by the second's. */
  lemma {:induction false} EmailsAppend(a: seq<Call>, b: seq<Call>)
    ensures Emails(a + b) == Emails(a) + Emails(b)
  {
    if a != [] {
      assert (a + b)[1..] == a[1..] + b;
      EmailsAppend(a[1..], b);
    } else {
      assert a + b == b;
    }
  }

  /** Two requests send no e-mail; a notification after them sends exactly its picking. */
  lemma EmailsAfterRequests(a: Call, b: Call, picking: AppointmentPicking)
    requires !a.SendEmail? && !b.SendEmail?
    ensures Emails([a, b]) == []
    ensures Emails([a, b] + [SendEmail(picking)]) == [picking]
  {
    assert [a, b][1..] == [b];
    assert [SendEmail(picking)][1..] == [];
    EmailsAppend([a, b], [SendEmail(picking)]);
  }

  /** The fetching stage sends one e-mail exactly when it reaches the notification. */
  lemma AnalyzeFetchedEmails(doctor: Doctor, ids: Selector, appointments: Result<AppointmentApiResponse, string>,
                             mail: Result<(), string>, parseDate: string -> Option<Calendar.Date>, infoLog: bool)
    requires Complete(ids)
    ensures |Emails(AnalyzeFetched(doctor, ids, appointments, mail, parseDate, infoLog).calls)|
      == EmailsSentBy(AnalyzeFetched(doctor, ids, appointments, mail, parseDate, infoLog).result)
  {
    var picking := if appointments.Ok? && ScanDays(appointments.value.days, doctor.doctorName, doctor.targetDate, parseDate, infoLog).Hit?
      then ScanDays(appointments.value.days, doctor.doctorName, doctor.targetDate, parseDate, infoLog).picking
      else NotFoundPicking(doctor);
    EmailsAfterRequests(SearchCall(doctor), FetchCall(ids), picking);
  }

  /**
   * One run sends exactly one e-mail when it reaches the notification (slot found or not),
   * and none when it stops earlier: no target, no candidate, invalid doctor, a failed call or a panic.
   */
  lemma AnalyzeEmails(lookup: Result<Option<Doctor>, string>, search: Result<seq<SearchApiResponse>, string>,
                      appointments: Result<AppointmentApiResponse, string>, mail: Result<(), string>,
                      parseDate: string -> Option<Calendar.Date>, infoLog: bool)
    ensures |Emails(Analyze(lookup, search, appointments, mail, parseDate, infoLog).calls)|
      == EmailsSentBy(Analyze(lookup, search, appointments, mail, parseDate, infoLog).result)
  {
    if lookup.Ok? && lookup.value.Some? && search.Ok? {
      var doctor, groups := lookup.value.value, search.value;
      if groups != [] && groups[0].results != [] {
        var v := Validate(groups[0].results[0], doctor, Unset);
        if v.valid && Complete(v.ids) {
          AnalyzeFetchedEmails(doctor, v.ids, appointments, mail, parseDate, infoLog);
        }
      }
    }
  }

  /**
   * No target, no candidate or a rejected candidate ends the run with an error after at
   * most the search, so no e-mail is sent.
   */
  lemma AnalyzeEarlyExits(lookup: Result<Option<Doctor>, string>, search: Result<seq<SearchApiResponse>, string>,
                          appointments: Result<AppointmentApiResponse, string>, mail: Result<(), string>,
                          parseDate: string -> Option<Calendar.Date>, infoLog: bool)
    ensures lookup.Ok? && lookup.value.None? ==>
      Analyze(lookup, search, appointments, mail, parseDate, infoLog) == Run(Failed(AnalyzeFailed), [])
    ensures (lookup.Ok? && lookup.value.Some? && search.Ok?
      && (search.value == [] || search.value[0].results == [])) ==>
      Analyze(lookup, search, appointments, mail, parseDate, infoLog) == Run(Failed(AnalyzeFailed), [SearchCall(lookup.value.value)])
    ensures (lookup.Ok? && lookup.value.Some? && search.Ok? && search.value != [] && search.value[0].results != []
      && !Validate(search.value[0].results[0], lookup.value.value, Unset).valid) ==>
      Analyze(lookup, search, appointments, mail, parseDate, infoLog) == Run(Failed(InvalidDoctor), [SearchCall(lookup.value.value)])
  {
  }

  /**
   * A candidate without a subject list (or without a service list) can pass validation,
   * but then its subject (or service) id is still unset and the run panics at the
   * unwrap before fetching anything.
   */
  lemma AbsentListPanics(doctor: Doctor, item: ResultItem,
                         appointments: Result<AppointmentApiResponse, string>, mail: Result<(), string>,
                         parseDate: string -> Option<Calendar.Date>, infoLog: bool)
    requires item.subjects.None? || item.services.None?
    requires Validate(item, doctor, Unset).valid
    ensures AnalyzeCandidate(doctor, item, appointments, mail, parseDate, infoLog) == Run(Panicked(MissingId), [SearchCall(doctor)])
  {
  }


  /**
   * A stored subject name with an upper-case letter rejects every candidate that lists
   * its subjects or its services: the stored name is compared as stored, while every
   * candidate name is lower-cased first.
   */
  lemma UpperSubjectNameRejects(item: ResultItem, doctor: Doctor)
    requires !IsLower(doctor.subjectName)
    requires item.subjects.Some? || item.services.Some?
    ensures !Validate(item, doctor, Unset).valid
  {
    ValidateSpec(item, doctor, Unset);
    if item.subjects.Some? {
      var subjects := item.subjects.value;
      FindSubjectSpec(subjects, doctor);
      forall i | 0 <= i < |subjects| ensures !SubjectMatches(subjects[i], doctor.subjectName) {
        UpperSubjectNameMatchesNoSubject(subjects[i], doctor.subjectName);
      }
    } else {
      var services := item.services.value;
      FindServiceSpec(services, doctor);
      forall i | 0 <= i < |services| ensures !ServiceMatches(services[i], doctor.serviceName, doctor.subjectName) {
        UpperSubjectNameMatchesNoService(services[i], doctor.serviceName, doctor.subjectName);
      }
    }
  }

  /** The service: its collaborators' results are passed in; `calls` records what it asked of them. */
  class MedService {
    ghost var calls: seq<Call>

    constructor ()
      ensures calls == []
    {
      calls := [];
    }

    /** `validate_doctor`: checks the hit against the target and records the ids it resolves. */
    method ValidateDoctor(item: ResultItem, analyzeDoctor: DoctorAppointment, target: Doctor) returns (ok: bool)
      modifies analyzeDoctor
      ensures ok == Validate(item, target, old(analyzeDoctor.Ids())).valid
      ensures analyzeDoctor.Ids() == Validate(item, target, old(analyzeDoctor.Ids())).ids
    {
      var isValidDoctor := item.title == Some(target.doctorName);

      if item.subjects.Some? {
        var targetSubject := FindSubject(item.subjects.value, target);
        if targetSubject.Some? {
          analyzeDoctor.subjectId := Some(targetSubject.value.id);
        } else {
          return false;
        }
      }

      if item.services.Some? {
        var targetService := FindService(item.services.value, target);
        if targetService.Some? {
          analyzeDoctor.serviceId := Some(targetService.value.id);
        } else {
          return false;
        }
      }

      var partnerValid := false;
      if item.partner.Some? {
        var partner := item.partner.value;
        if partner.partnerId == Some(target.hospitalId) && partner.cityId == Some(target.cityId) {
          analyzeDoctor.partnerId := partner.partnerId;
          partnerValid := true;
        }
      }

      analyzeDoctor.doctorId := item.id;
      return isValidDoctor && partnerValid;
    }

    /** `analyze_appointment`: one run, from target lookup to notification. */
    method AnalyzeAppointment(lookup: Result<Option<Doctor>, string>, search: Result<seq<SearchApiResponse>, string>,
                              appointments: Result<AppointmentApiResponse, string>, mail: Result<(), string>,
                              parseDate: string -> Option<Calendar.Date>, infoLog: bool) returns (result: RunResult)
      modifies this
      ensures result == Analyze(lookup, search, appointments, mail, parseDate, infoLog).result
      ensures calls == old(calls) + Analyze(lookup, search, appointments, mail, parseDate, infoLog).calls
    {
      if lookup.Err? {
        return Failed(LookupFailed(lookup.error));
      }
      if lookup.value.Some? {
        var doctor := lookup.value.value;
        assert Analyze(lookup, search, appointments, mail, parseDate, infoLog)
          == AnalyzeTarget(doctor, search, appointments, mail, parseDate, infoLog);
        calls := calls + [SearchCall(doctor)];
        if search.Err? {
          return Failed(SearchFailed(search.error));
        }
        var searchResponse := search.value;
        if |searchResponse| > 0 {
          var firstMed := searchResponse[0];
          if |firstMed.results| > 0 {
            var firstDoctorItem := firstMed.results[0];
            assert AnalyzeTarget(doctor, search, appointments, mail, parseDate, infoLog)
              == AnalyzeCandidate(doctor, firstDoctorItem, appointments, mail, parseDate, infoLog);
            var analyzeDoctor := new DoctorAppointment();

            var valid := ValidateDoctor(firstDoctorItem, analyzeDoctor, doctor);
            if !valid {
              return Failed(InvalidDoctor);
            }

            if analyzeDoctor.subjectId.None? || analyzeDoctor.doctorId.None?
              || analyzeDoctor.serviceId.None? || analyzeDoctor.partnerId.None? {
              return Panicked(MissingId);
            }
            var ids := analyzeDoctor.Ids();
            assert AnalyzeCandidate(doctor, firstDoctorItem, appointments, mail, parseDate, infoLog)
              == AnalyzeFetched(doctor, ids, appointments, mail, parseDate, infoLog);
            ghost var fetched := [SearchCall(doctor), FetchCall(ids)];
            calls := calls + [FetchCall(ids)];
            assert [SearchCall(doctor)] + [FetchCall(ids)] == fetched;
            Iter.AppendAssoc(old(calls), [SearchCall(doctor)], [FetchCall(ids)]);
            if appointments.Err? {
              return Failed(FetchFailed(appointments.error));
            }

            var checked := ScanDays(appointments.value.days, doctor.doctorName, doctor.targetDate, parseDate, infoLog);
            if checked.Abort? {
              return Panicked(checked.panic);
            }
            var picking := if checked.Hit? then checked.picking else NotFoundPicking(doctor);
            calls := calls + [SendEmail(picking)];
            Iter.AppendAssoc(old(calls), fetched, [SendEmail(picking)]);
            if mail.Err? {
              return Failed(MailFailed(mail.error));
            }
            return Done(picking);
          }
        }
      }
      return Failed(AnalyzeFailed);
    }
  }
}
