/**
 * The decision engine of the older top-level crate (src/services/med_service.rs):
 * the same identity tests as the `med-bot-service` crate, but the selector has
 * no partner id, the appointment fetch takes three ids, the target date is parsed
 * once (an unparsable date is an error, not a panic), the scan never unwraps a
 * slot count, no e-mail is sent, and "no slot" is an error.
 */
module RootMedService {
  import opened Wrappers
  import opened Ints
  import opened AppointmentModel
  import opened SearchModel
  import opened Documents
  import opened DoctorMatching
  import opened Availability
  import Calendar
  import Iter

  // ---------------------------------------------------------------------------
  // Records

  /** `DoctorAppointment` of this crate: three ids, no partner. */
  datatype Selector = Selector(
    subjectId: Option<string>,
    doctorId: Option<string>,
    serviceId: Option<string>)

  /** `DoctorAppointment::default()`. */
  const Unset := Selector(None, None, None)

  /**
   * The outcome this crate builds. The crate's record type declares the day and
   * date as optional strings, but the service stores the day's raw timestamp and
   * the target's day count from the common era in them; the model keeps the
   * integers the service computes. The day count is a 32-bit value for every date
   * chrono represents, so its widening to 64 bits is exact and kept as `int`.
   */
  datatype AppointmentPicking = AppointmentPicking(
    doctorName: Option<string>,
    appointmentDay: Option<i64>,
    appointmentDate: Option<int>,
    availableSlot: Option<seq<TimeSlot>>,
    doctorChangeInfo: Option<DoctorChangeInfo>)

  /** Errors `analyze_appointment` returns. */
  datatype Failure =
    | LookupFailed(message: string)   // the target lookup's error, propagated
    | SearchFailed(message: string)   // the search call's error, propagated
    | InvalidDoctor                   // "Invalid doctor"
    | FetchFailed(message: string)    // the appointment call's error, propagated
    | UnparsableTargetDate            // the target-date parse error, propagated
    | NoAppointmentFound              // "No appointment found"
    | AnalyzeFailed                   // "Analyze appointment fail"

  /** A run returns a picking, an error, or panics on a missing id before the fetch. */
  datatype RunResult = Done(picking: AppointmentPicking) | Failed(failure: Failure) | PanickedMissingId

  /** The external calls one run makes, in order. */
  datatype Call =
    | SearchMed(searchKey: string, cityId: string, subjectId: string)
    | GetAppointments(subjectId: string, doctorId: string, serviceId: string)

  datatype Run = Run(result: RunResult, calls: seq<Call>)

  // ---------------------------------------------------------------------------
  // Identity validation

  datatype Validation = Validation(valid: bool, ids: Selector)

  /**
   * What `validate_doctor` returns and leaves in the selector it was given (`before`).
   * Unlike the newer crate, the partner check records nothing.
   */
  function Validate(item: ResultItem, target: Doctor, before: Selector): Validation
  {
    var subjectFound := if item.subjects.Some? then FindSubject(item.subjects.value, target) else None;
    if item.subjects.Some? && subjectFound.None? then Validation(false, before)
    else
      var s1 := if subjectFound.Some? then before.(subjectId := Some(subjectFound.value.id)) else before;
      var serviceFound := if item.services.Some? then FindService(item.services.value, target) else None;
      if item.services.Some? && serviceFound.None? then Validation(false, s1)
      else
        var s2 := if serviceFound.Some? then s1.(serviceId := Some(serviceFound.value.id)) else s1;
        Validation(NameMatches(item, target) && PartnerMatches(item, target), s2.(doctorId := item.id))
  }

  /**
   * The verdict is the conjunction of the name check, the partner check and both list
   * checks; a failed list check returns before the doctor id is written; each list
   * check that passes records the id it resolved.
   */
  lemma ValidateSpec(item: ResultItem, target: Doctor, before: Selector)
    ensures Validate(item, target, before).valid <==>
      && NameMatches(item, target) && PartnerMatches(item, target)
      && (item.subjects.Some? ==> FindSubject(item.subjects.value, target).Some?)
      && (item.services.Some? ==> FindService(item.services.value, target).Some?)
    ensures item.subjects.Some? && FindSubject(item.subjects.value, target).None? ==>
      Validate(item, target, before).ids == before
    ensures item.subjects.Some? && FindSubject(item.subjects.value, target).Some? ==>
      Validate(item, target, before).ids.subjectId == Some(FindSubject(item.subjects.value, target).value.id)
    ensures item.services.Some? && FindService(item.services.value, target).None? ==>
      Validate(item, target, before).ids.doctorId == before.doctorId
    ensures
      && (item.subjects.Some? ==> FindSubject(item.subjects.value, target).Some?)
      && (item.services.Some? ==> FindService(item.services.value, target).Some?)
      ==>
      && Validate(item, target, before).ids.doctorId == item.id
      && Validate(item, target, before).ids.serviceId
           == (if item.services.Some? then Some(FindService(item.services.value, target).value.id) else before.serviceId)
      && (item.subjects.None? ==> Validate(item, target, before).ids.subjectId == before.subjectId)
  {
  }

  /** The selector `validate_doctor` fills in place. */
  class DoctorAppointment {
    var subjectId: Option<string>
    var doctorId: Option<string>
    var serviceId: Option<string>

    /** `DoctorAppointment::default()`: every id unset. */
    constructor ()
      ensures Ids() == Unset
    {
      subjectId, doctorId, serviceId := None, None, None;
    }

    function Ids(): Selector
      reads this
    {
      Selector(subjectId, doctorId, serviceId)
    }
  }

  // ---------------------------------------------------------------------------
  // Availability scan

  /** The found outcome for one shift's bookable slots on the day stamped `ms`. */
  function FoundPicking(shift: Shift, slots: seq<TimeSlot>, ms: i64, target: Calendar.Date): AppointmentPicking
  {
    AppointmentPicking(None, Some(ms), Some(Calendar.NumDaysFromCe(target)), Some(slots), shift.doctorChangeInfo)
  }

  /** The closure `find_map` applies to each shift: skip a shift without slots, hit when some slot is bookable. */
  function ShiftOutcome(shift: Shift, ms: i64, target: Calendar.Date): Option<AppointmentPicking>
  {
    match shift.timeSlotInDay
    case None => None
    case Some(slots) =>
      var available := QualifyingSlots(slots);
      if available != [] then Some(FoundPicking(shift, available, ms, target)) else None
  }

  /**
   * A shift hits exactly when it has slots and one of them is bookable; the hit
   * carries no doctor name, the day's timestamp, the target's day count from the
   * common era, the bookable slots and the shift's doctor-change record.
   */
  lemma ShiftOutcomeSpec(shift: Shift, ms: i64, target: Calendar.Date)
    ensures ShiftOutcome(shift, ms, target).Some? <==>
      shift.timeSlotInDay.Some?
      && exists i :: 0 <= i < |shift.timeSlotInDay.value| && Qualifies(shift.timeSlotInDay.value[i])
    ensures ShiftOutcome(shift, ms, target).Some? ==>
      var p := ShiftOutcome(shift, ms, target).value;
      && p.doctorName.None?
      && p.appointmentDay == Some(ms)
      && p.appointmentDate == Some(Calendar.NumDaysFromCe(target))
      && p.availableSlot == Some(QualifyingSlots(shift.timeSlotInDay.value))
      && p.availableSlot.value != []
      && p.doctorChangeInfo == shift.doctorChangeInfo
  {
  }

  /** `shifts.iter().find_map(...)`: the outcome of the first shift that hits. */
  function ScanShifts(shifts: seq<Shift>, ms: i64, target: Calendar.Date): Option<AppointmentPicking>
  {
    if shifts == [] then None
    else
      var outcome := ShiftOutcome(shifts[0], ms, target);
      if outcome.Some? then outcome else ScanShifts(shifts[1..], ms, target)
  }

  /** The shift scan finds nothing only when no shift hits, and otherwise returns the first hit. */
  lemma {:induction false} ScanShiftsSpec(shifts: seq<Shift>, ms: i64, target: Calendar.Date)
    ensures ScanShifts(shifts, ms, target).None? <==>
      forall i :: 0 <= i < |shifts| ==> ShiftOutcome(shifts[i], ms, target).None?
    ensures ScanShifts(shifts, ms, target).Some? ==>
      exists i :: 0 <= i < |shifts| && ScanShifts(shifts, ms, target) == ShiftOutcome(shifts[i], ms, target)
        && forall j :: 0 <= j < i ==> ShiftOutcome(shifts[j], ms, target).None?
  {
    if shifts != [] && ShiftOutcome(shifts[0], ms, target).None? {
      ScanShiftsSpec(shifts[1..], ms, target);
      assert forall i :: 1 <= i < |shifts| ==> shifts[i] == shifts[1..][i - 1];
      if ScanShifts(shifts, ms, target).Some? {
        var i :| 0 <= i < |shifts[1..]| && ScanShifts(shifts[1..], ms, target) == ShiftOutcome(shifts[1..][i], ms, target)
          && forall j :: 0 <= j < i ==> ShiftOutcome(shifts[1..][j], ms, target).None?;
        assert ScanShifts(shifts, ms, target) == ShiftOutcome(shifts[i + 1], ms, target);
      }
    }
  }

  /**
   * `find_available_shift`: a day without a timestamp, or whose timestamp is not on
   * the target's UTC date, yields nothing; otherwise scan its shifts.
   */
  function FindAvailableShift(day: Day, target: Calendar.Date): Option<AppointmentPicking>
  {
    match day.date
    case None => None
    case Some(ms) => if OnDate(ms, target) then ScanShifts(day.shifts, ms, target) else None
  }

  /** A day is scanned exactly when it has a timestamp falling on the target's UTC calendar date. */
  lemma FindAvailableShiftSpec(day: Day, target: Calendar.Date)
    ensures day.date.None? ==> FindAvailableShift(day, target).None?
    ensures day.date.Some? ==>
      FindAvailableShift(day, target)
        == if Calendar.UtcDate(day.date.value as int) == target then ScanShifts(day.shifts, day.date.value, target) else None
  {
    if day.date.Some? {
      OnDateIsCalendarDate(day.date.value, target);
    }
  }

  /** `days.iter().find_map(...)`: the outcome of the first day that yields one. */
  function ScanDays(days: seq<Day>, target: Calendar.Date): Option<AppointmentPicking>
  {
    if days == [] then None
    else
      var outcome := FindAvailableShift(days[0], target);
      if outcome.Some? then outcome else ScanDays(days[1..], target)
  }

  /** The day scan finds nothing only when no day yields, and otherwise returns the first day's outcome. */
  lemma {:induction false} ScanDaysSpec(days: seq<Day>, target: Calendar.Date)
    ensures ScanDays(days, target).None? <==> forall i :: 0 <= i < |days| ==> FindAvailableShift(days[i], target).None?
    ensures ScanDays(days, target).Some? ==>
      exists i :: 0 <= i < |days| && ScanDays(days, target) == FindAvailableShift(days[i], target)
        && forall j :: 0 <= j < i ==> FindAvailableShift(days[j], target).None?
  {
    if days != [] && FindAvailableShift(days[0], target).None? {
      ScanDaysSpec(days[1..], target);
      assert forall i :: 1 <= i < |days| ==> days[i] == days[1..][i - 1];
      if ScanDays(days, target).Some? {
        var i :| 0 <= i < |days[1..]| && ScanDays(days[1..], target) == FindAvailableShift(days[1..][i], target)
          && forall j :: 0 <= j < i ==> FindAvailableShift(days[1..][j], target).None?;
        assert ScanDays(days, target) == FindAvailableShift(days[i + 1], target);
      }
    }
  }

  // ---------------------------------------------------------------------------
  // Run orchestration

  /** The three ids the appointment fetch unwraps are present. */
  predicate Complete(ids: Selector) {
    ids.subjectId.Some? && ids.doctorId.Some? && ids.serviceId.Some?
  }

  function SearchCall(doctor: Doctor): Call {
    SearchMed(doctor.doctorName, doctor.cityId, doctor.subjectRefId)
  }

  function FetchCall(ids: Selector): Call
    requires Complete(ids)
  {
    GetAppointments(ids.subjectId.value, ids.doctorId.value, ids.serviceId.value)
  }

  /**
   * `analyze_appointment` on the given collaborator results: `lookup` is the lookup of
   * the hard-coded target name, `search` the search response, `appointments` the
   * appointment response and `parseDate` chrono's `%Y-%m-%d` parser.
   */
  function Analyze(lookup: Result<Option<Doctor>, string>, search: Result<seq<SearchApiResponse>, string>,
                   appointments: Result<AppointmentApiResponse, string>,
                   parseDate: string -> Option<Calendar.Date>): Run
  {
    match lookup
    case Err(e) => Run(Failed(LookupFailed(e)), [])
    case Ok(None) => Run(Failed(AnalyzeFailed), [])
    case Ok(Some(doctor)) => AnalyzeTarget(doctor, search, appointments, parseDate)
  }

  /** The run once a target was found: search, then pick the first hit of the first group. */
  function AnalyzeTarget(doctor: Doctor, search: Result<seq<SearchApiResponse>, string>,
                         appointments: Result<AppointmentApiResponse, string>,
                         parseDate: string -> Option<Calendar.Date>): Run
  {
    match search
    case Err(e) => Run(Failed(SearchFailed(e)), [SearchCall(doctor)])
    case Ok(groups) =>
      if groups == [] || groups[0].results == [] then Run(Failed(AnalyzeFailed), [SearchCall(doctor)])
      else AnalyzeCandidate(doctor, groups[0].results[0], appointments, parseDate)
  }

  /** The run once a candidate was picked: validate it, then unwrap the three ids. */
  function AnalyzeCandidate(doctor: Doctor, item: ResultItem,
                            appointments: Result<AppointmentApiResponse, string>,
                            parseDate: string -> Option<Calendar.Date>): Run
  {
    var v := Validate(item, doctor, Unset);
    if !v.valid then Run(Failed(InvalidDoctor), [SearchCall(doctor)])
    else if !Complete(v.ids) then Run(PanickedMissingId, [SearchCall(doctor)])
    else AnalyzeFetched(doctor, v.ids, appointments, parseDate)
  }

  /** The run after validation succeeded with every id resolved: fetch, parse the target, scan. */
  function AnalyzeFetched(doctor: Doctor, ids: Selector, appointments: Result<AppointmentApiResponse, string>,
                          parseDate: string -> Option<Calendar.Date>): Run
    requires Complete(ids)
  {
    var fetched := [SearchCall(doctor), FetchCall(ids)];
    match appointments
    case Err(e) => Run(Failed(FetchFailed(e)), fetched)
    case Ok(response) =>
      match parseDate(doctor.targetDate)
      case None => Run(Failed(UnparsableTargetDate), fetched)
      case Some(target) =>
        match ScanDays(response.days, target)
        case Some(picking) => Run(Done(picking), fetched)
        case None => Run(Failed(NoAppointmentFound), fetched)
  }

  /**
   * Once the target is validated and the appointments fetched, the run ends in the first
   * day's outcome when some day yields one, and in "No appointment found" when none does;
   * an unparsable target date is an error raised after the fetch.
   */
  lemma AnalyzeFetchedOutcome(doctor: Doctor, ids: Selector, response: AppointmentApiResponse,
                              parseDate: string -> Option<Calendar.Date>)
    requires Complete(ids)
    ensures parseDate(doctor.targetDate).None? ==>
      AnalyzeFetched(doctor, ids, Ok(response), parseDate).result == Failed(UnparsableTargetDate)
    ensures parseDate(doctor.targetDate).Some? ==>
      var target := parseDate(doctor.targetDate).value;
      var r := AnalyzeFetched(doctor, ids, Ok(response), parseDate).result;
      && (r.Done? || r == Failed(NoAppointmentFound))
      && ((forall i :: 0 <= i < |response.days| ==> FindAvailableShift(response.days[i], target).None?)
          <==> r == Failed(NoAppointmentFound))
      && (r.Done? ==>
            exists i :: 0 <= i < |response.days| && FindAvailableShift(response.days[i], target) == Some(r.picking)
              && forall j :: 0 <= j < i ==> FindAvailableShift(response.days[j], target).None?)
  {
    if parseDate(doctor.targetDate).Some? {
      var target := parseDate(doctor.targetDate).value;
      ScanDaysSpec(response.days, target);
    }
  }

  /**
   * This crate never notifies: every run makes at most the search and the fetch, and
   * a run that returns a picking made exactly those two calls.
   */
  lemma AnalyzeCalls(lookup: Result<Option<Doctor>, string>, search: Result<seq<SearchApiResponse>, string>,
                     appointments: Result<AppointmentApiResponse, string>,
                     parseDate: string -> Option<Calendar.Date>)
    ensures var r := Analyze(lookup, search, appointments, parseDate);
      && |r.calls| <= 2
      && (r.calls != [] ==> lookup.Ok? && lookup.value.Some? && r.calls[0] == SearchCall(lookup.value.value))
      && (r.result.Done? ==> |r.calls| == 2 && r.calls[1].GetAppointments?)
  {
    if lookup.Ok? && lookup.value.Some? && search.Ok? {
      var doctor, groups := lookup.value.value, search.value;
      if groups != [] && groups[0].results != [] {
        var v := Validate(groups[0].results[0], doctor, Unset);
        if v.valid && Complete(v.ids) {
          AnalyzeFetchedCalls(doctor, v.ids, appointments, parseDate);
        }
      }
    }
  }

  /** Past validation, the run has made the search and the fetch, and nothing else. */
  lemma AnalyzeFetchedCalls(doctor: Doctor, ids: Selector, appointments: Result<AppointmentApiResponse, string>,
                            parseDate: string -> Option<Calendar.Date>)
    requires Complete(ids)
    ensures AnalyzeFetched(doctor, ids, appointments, parseDate).calls == [SearchCall(doctor), FetchCall(ids)]
  {
  }

  /** No target, no candidate or a rejected candidate ends the run with an error before any fetch. */
  lemma AnalyzeEarlyExits(lookup: Result<Option<Doctor>, string>, search: Result<seq<SearchApiResponse>, string>,
                          appointments: Result<AppointmentApiResponse, string>,
                          parseDate: string -> Option<Calendar.Date>)
    ensures lookup.Ok? && lookup.value.None? ==> Analyze(lookup, search, appointments, parseDate) == Run(Failed(AnalyzeFailed), [])
    ensures (lookup.Ok? && lookup.value.Some? && search.Ok?
      && (search.value == [] || search.value[0].results == [])) ==>
      Analyze(lookup, search, appointments, parseDate) == Run(Failed(AnalyzeFailed), [SearchCall(lookup.value.value)])
    ensures (lookup.Ok? && lookup.value.Some? && search.Ok? && search.value != [] && search.value[0].results != []
      && !Validate(search.value[0].results[0], lookup.value.value, Unset).valid) ==>
      Analyze(lookup, search, appointments, parseDate) == Run(Failed(InvalidDoctor), [SearchCall(lookup.value.value)])
  {
  }

  /** The service: its collaborators' results are passed in; `calls` records what it asked of them. */
  class MedService {
    ghost var calls: seq<Call>

    constructor ()
      ensures calls == []
    {
      calls := [];
    }

    /** `validate_doctor`: checks the hit against the target and records the ids it resolves. */
    method ValidateDoctor(doctor: ResultItem, analyzeDoctor: DoctorAppointment, doctorDetail: Doctor) returns (ok: bool)
      modifies analyzeDoctor
      ensures ok == Validate(doctor, doctorDetail, old(analyzeDoctor.Ids())).valid
      ensures analyzeDoctor.Ids() == Validate(doctor, doctorDetail, old(analyzeDoctor.Ids())).ids
    {
      var isValidDoctor := doctor.title == Some(doctorDetail.doctorName);

      if doctor.subjects.Some? {
        var targetSubject := FindSubject(doctor.subjects.value, doctorDetail);
        if targetSubject.Some? {
          analyzeDoctor.subjectId := Some(targetSubject.value.id);
        } else {
          return false;
        }
      }

      if doctor.services.Some? {
        var targetService := FindService(doctor.services.value, doctorDetail);
        if targetService.Some? {
          analyzeDoctor.serviceId := Some(targetService.value.id);
        } else {
          return false;
        }
      }

      var partnerValid := doctor.partner.Some? && doctor.partner.value.partnerId == Some(doctorDetail.hospitalId)
        && doctor.partner.value.cityId == Some(doctorDetail.cityId);

      analyzeDoctor.doctorId := doctor.id;
      return isValidDoctor && partnerValid;
    }

    /** `analyze_appointment`: one run, from target lookup to the scan's verdict. */
    method AnalyzeAppointment(lookup: Result<Option<Doctor>, string>, search: Result<seq<SearchApiResponse>, string>,
                              appointments: Result<AppointmentApiResponse, string>,
                              parseDate: string -> Option<Calendar.Date>) returns (result: RunResult)
      modifies this
      ensures result == Analyze(lookup, search, appointments, parseDate).result
      ensures calls == old(calls) + Analyze(lookup, search, appointments, parseDate).calls
    {
      if lookup.Err? {
        return Failed(LookupFailed(lookup.error));
      }
      if lookup.value.Some? {
        var doctor := lookup.value.value;
        assert Analyze(lookup, search, appointments, parseDate) == AnalyzeTarget(doctor, search, appointments, parseDate);
        calls := calls + [SearchCall(doctor)];
        if search.Err? {
          return Failed(SearchFailed(search.error));
        }
        var searchResponse := search.value;
        if |searchResponse| > 0 {
          var firstMed := searchResponse[0];
          if |firstMed.results| > 0 {
            var firstDoctorItem := firstMed.results[0];
            assert AnalyzeTarget(doctor, search, appointments, parseDate)
              == AnalyzeCandidate(doctor, firstDoctorItem, appointments, parseDate);
            var analyzeDoctor := new DoctorAppointment();

            var valid := ValidateDoctor(firstDoctorItem, analyzeDoctor, doctor);
            if !valid {
              return Failed(InvalidDoctor);
            }

            if analyzeDoctor.subjectId.None? || analyzeDoctor.doctorId.None? || analyzeDoctor.serviceId.None? {
              return PanickedMissingId;
            }
            var ids := analyzeDoctor.Ids();
            assert AnalyzeCandidate(doctor, firstDoctorItem, appointments, parseDate)
              == AnalyzeFetched(doctor, ids, appointments, parseDate);
            calls := calls + [FetchCall(ids)];
            assert [SearchCall(doctor)] + [FetchCall(ids)] == [SearchCall(doctor), FetchCall(ids)];
            Iter.AppendAssoc(old(calls), [SearchCall(doctor)], [FetchCall(ids)]);
            if appointments.Err? {
              return Failed(FetchFailed(appointments.error));
            }

            var targetDate := parseDate(doctor.targetDate);
            if targetDate.None? {
              return Failed(UnparsableTargetDate);
            }
            var found := ScanDays(appointments.value.days, targetDate.value);
            if found.None? {
              return Failed(NoAppointmentFound);
            }
            return Done(found.value);
          }
        }
      }
      return Failed(AnalyzeFailed);
    }
  }

}
