# med-bot appointment matcher in Dafny

This project models the decision engine of med-bot, a bot that watches a
hospital booking platform for a free slot with one stored target doctor. One
run of `analyze_appointment` has four steps:

1. Load the target doctor.
2. Search the platform and take the first hit.
3. Check that the hit is the target (`validate_doctor`).
4. Fetch the doctor's appointment tree and look for the first day on the
   target date that has a shift with bookable slots (`find_available_shift`).

The newer `med-bot-service` crate e-mails the outcome, whether a slot was found
or not. The older top-level crate (`src/`) returns the outcome and treats
"no slot" as an error. Both versions are modelled side by side, along with
lemmas that compare them.

Layout:

- `wrappers.dfy`: `Option`/`Result`, plus the `u32`/`i64` newtypes for the wire integers.
- `text.dfy`: `to_lowercase` and `contains` on strings.
- `iter.dfy`: `position`, `find` and `filter`+`collect` over sequences.
- `calendar.dfy`: proleptic Gregorian dates as chrono numbers them.
  - `num_days_from_ce` and days-from-civil.
  - The UTC date of an epoch-millisecond timestamp, which is floor division by 86 400 000.
- `appointment_model.dfy`: three record modules.
  - `AppointmentModel` holds the appointment tree (`Day`, `Shift`, `TimeSlot`, `DoctorChangeInfo`).
  - `SearchModel` holds the search response (`ResultItem`, `Subject`, `Service`, `Partner`).
  - `Documents` holds the stored `Doctor`.
- `availability.dfy`: the slot rule `0 < available <= max`, and the day-on-target-date test.
- `doctor_matching.dfy`: the name, subject, service and partner tests both versions share, and the first-match searches.
- `med_bot_service.dfy`: the newer crate (med-bot-service/src/services/med_service.rs).
- `root_med_service.dfy`: the older crate (src/services/med_service.rs).
- `versions.dfy`: lemmas relating the two versions.

Modelling choices:

- The collaborators are inputs to a run:
  - the database lookup, as `Result<Option<Doctor>, string>`;
  - the search and appointment HTTP responses, as `Result<…, string>`;
  - the mailer's answer, as `Result<(), string>`;
  - chrono's `%Y-%m-%d` parser, as a function `string -> Option<Date>`.
- Each service is a class, `MedService`. Its ghost field `calls` records the requests and e-mails of a run in order.
- `validate_doctor` fills a `DoctorAppointment` object in place. It is modelled as the method `MedService.ValidateDoctor`, which takes that object and modifies its ids, and it is proved against the pure function `Validate`.
- A Rust `unwrap` on `None` is an explicit outcome, `Panicked`.
- The older crate's `AppointmentPicking` declares `appointment_day`/`appointment_date` as optional strings. Its service code stores an `i64` timestamp and a day count in them, and the model follows the service code.
- The stored `subject_name` and `service_name` are compared exactly as stored. Only the candidate's strings are lower-cased. As proved below, a stored *subject* name with an upper-case letter therefore rejects every candidate that lists subjects or services. An upper-case stored service name matches no service, so it rejects only candidates that list services.
- In the newer crate, the available count of each slot is unwrapped inside the arguments of a `log::info!` call. The `log` macros evaluate their arguments only when the logger's maximum level admits Info. The crate's default filter does, but `RUST_LOG` can lower it. The model takes this as the input `infoLog`: with it, an uncounted slot panics; without it, the slot is skipped as in the older crate.

## Model

| member | source | states |
|---|---|---|
| Text.LowerChar | med-bot-service/src/services/med_service.rs:182 | lower-casing changes exactly the upper-case letters and never yields one |
| Text.Lower | med-bot-service/src/services/med_service.rs:182 | `to_lowercase` keeps the length and lower-cases each character in place |
| Text.LowerIdempotent | med-bot-service/src/services/med_service.rs:193 | lower-casing twice equals lower-casing once, and its result is lower-case |
| Text.LowerNeverContainsUpper | med-bot-service/src/services/med_service.rs:182 | a lower-cased name never contains a needle that has an upper-case letter |
| Text.ContainsEmpty | med-bot-service/src/services/med_service.rs:182 | the empty needle is contained in every string |
| Iter.Position | med-bot-service/src/services/med_service.rs:181-183 | the index of the first element passing the test (or the length): it passes, and all before it fail |
| Iter.Find | med-bot-service/src/services/med_service.rs:181-183 | `find` returns None iff no element passes; otherwise it returns the first element that passes |
| Iter.Filter | med-bot-service/src/services/med_service.rs:231-245 | `filter` keeps exactly the passing elements: each kept element passes and comes from the input, and every passing element is kept |
| Iter.FilterAppend | med-bot-service/src/services/med_service.rs:231-245 | filtering a concatenation concatenates the filtered parts, so input order is kept |
| Iter.FilterAllOrNone | med-bot-service/src/services/med_service.rs:231-247 | if all elements pass, the input is kept whole; the result is empty iff none passes |
| Calendar.DaysBeforeMonth | src/services/med_service.rs:212 | the months before month m take between 28(m-1) and 31(m-1) days |
| Calendar.NumDaysFromCe | src/services/med_service.rs:212 | `num_days_from_ce` numbers 0001-01-01 as day 1 |
| Calendar.DaysFromCivil | med-bot-service/src/services/med_service.rs:226 | 1970-01-01 is day 0 |
| Calendar.EpochDay | med-bot-service/src/services/med_service.rs:223 | an instant lies in the UTC day it is mapped to (floor division by 86 400 000, also for negative timestamps) |
| Calendar.DateOfEpochDay | med-bot-service/src/services/med_service.rs:223 | the date built for epoch day e has day number e |
| Calendar.UtcDate | med-bot-service/src/services/med_service.rs:223 | the date of an instant has the instant's epoch day as its day number |
| Calendar.DaysBeforeYearStep | src/services/med_service.rs:212 | each year adds 365 days, or 366 in a leap year |
| Calendar.DaysBeforeMonthYear | src/services/med_service.rs:212 | the twelve months add up to the year's length |
| Calendar.DaysBeforeMonthMonotone | src/services/med_service.rs:212 | a later month starts after every day of an earlier one |
| Calendar.DaysBeforeYearMonotone | src/services/med_service.rs:212 | a later year starts after every day of an earlier one |
| Calendar.DayOfYearBounds | src/services/med_service.rs:212 | a valid date's day of the year lies between 1 and the year's length |
| Calendar.DaysFromCivilStrictlyMonotone | med-bot-service/src/services/med_service.rs:226 | day numbers increase strictly in calendar order |
| Calendar.DaysFromCivilInjective | med-bot-service/src/services/med_service.rs:226 | two valid dates have equal day numbers iff they are the same date |
| Calendar.NextDayStep | med-bot-service/src/services/med_service.rs:223 | the next calendar day has the next day number |
| Calendar.PrevDayStep | med-bot-service/src/services/med_service.rs:223 | the previous calendar day has the previous day number |
| Calendar.SameUtcDate | med-bot-service/src/services/med_service.rs:226 | an instant's UTC date equals the target iff its epoch day equals the target's day number |
| Calendar.UtcDateOfDay | med-bot-service/src/services/med_service.rs:223-226 | an instant falls on the target date iff it lies in that date's 86 400 000 ms window |
| Calendar.ExampleEpochDay | src/services/med_service.rs:212 | 2024-10-03 is epoch day 19999 and day 739162 from the common era, and 1727913600000 ms falls on it |
| Availability.QualifyingSlots | med-bot-service/src/services/med_service.rs:231-245 | every kept slot is bookable and every bookable slot is kept; the result is empty iff no slot is bookable |
| Availability.QualifyingSlotsAppend | med-bot-service/src/services/med_service.rs:231-245 | the kept slots stay in their input order |
| Availability.QualifyingSlotsSingle | med-bot-service/src/services/med_service.rs:234-244 | one slot is kept iff both counts are present and 0 < available <= max |
| Availability.OnDateIsCalendarDate | med-bot-service/src/services/med_service.rs:223-226 | the epoch-day test equals chrono's comparison of the timestamp's UTC date with the target date |
| DoctorMatching.AnySubjectNameIff | med-bot-service/src/services/med_service.rs:194-196 | `any` holds iff some lower-cased subject name contains the stored subject name |
| DoctorMatching.FindSubjectSpec | med-bot-service/src/services/med_service.rs:180-188 | no subject is found iff none matches; a found subject is the first match in list order |
| DoctorMatching.FindServiceSpec | med-bot-service/src/services/med_service.rs:191-202 | no service is found iff none matches (name equal after lower-casing, and some subject name matching); a found service is the first match |
| DoctorMatching.UpperSubjectNameMatchesNoSubject | med-bot-service/src/services/med_service.rs:182 | a stored subject name with an upper-case letter matches no subject |
| DoctorMatching.UpperSubjectNameMatchesNoService | med-bot-service/src/services/med_service.rs:195 | a stored subject name with an upper-case letter matches no service |
| DoctorMatching.UpperServiceNameNeverMatches | med-bot-service/src/services/med_service.rs:193 | a stored service name with an upper-case letter matches no service |
| DoctorMatching.SubjectMatchIgnoresCandidateCase | med-bot-service/src/services/med_service.rs:182 | lower-casing a candidate's subject name beforehand changes no verdict |
| DoctorMatching.EmptySubjectNameMatchesAnyNamed | med-bot-service/src/services/med_service.rs:182 | an empty stored subject name matches every subject that has a name |
| MedBotService.ValidateSpec | med-bot-service/src/services/med_service.rs:175-216 | the verdict holds iff name, partner and both present-list checks pass. A failed subject check leaves every id as it was. A failed service check keeps only the subject id. Otherwise the ids are the first matches, the hospital id when the partner matches, and the candidate id |
| MedBotService.DoctorAppointment.constructor | med-bot-service/src/services/med_service.rs:118 | `DoctorAppointment::default()` has every id unset |
| MedBotService.MedService.ValidateDoctor | med-bot-service/src/services/med_service.rs:175-216 | the in-place checks return `Validate`'s verdict and leave exactly `Validate`'s ids in the selector |
| MedBotService.ShiftOutcomeSpec | med-bot-service/src/services/med_service.rs:229-257 | a shift hits iff it has slots, one of them is bookable, and (with Info logging on) all of them are counted. It panics iff Info logging is on and a slot lacks its available count. A hit carries the doctor name, the target date string, the shift's `days`, its doctor-change record and exactly its bookable slots |
| MedBotService.ScanShiftsSpec | med-bot-service/src/services/med_service.rs:229-257 | the shift scan misses iff every shift misses; otherwise it is the outcome of the first shift that does not miss |
| MedBotService.FindAvailableShiftSpec | med-bot-service/src/services/med_service.rs:218-261 | an unparsable target date panics; a day without a timestamp misses; otherwise the shifts are scanned iff the timestamp's UTC date is the target date |
| MedBotService.ScanDaysSpec | med-bot-service/src/services/med_service.rs:136-144 | the day scan misses iff every day misses; otherwise it is the outcome of the first day that does not miss |
| MedBotService.FoundDayPicking | med-bot-service/src/services/med_service.rs:218-261 | a found picking comes from a day on the target's UTC date. It is the first non-missing shift's outcome, with a non-empty list of bookable slots |
| MedBotService.Emails | med-bot-service/src/services/med_service.rs:146-159 | a picking is mailed iff the trace holds a `SendEmail` call for it |
| MedBotService.EmailsAppend | med-bot-service/src/services/med_service.rs:146-159 | the e-mails of two consecutive traces are the first's followed by the second's, in order |
| MedBotService.AnalyzeFetchedOutcome | med-bot-service/src/services/med_service.rs:126-160 | past validation: the run panics iff the day scan panics, and then sends nothing; an unparsable date panics once a day exists; with no days the not-found picking is mailed; otherwise the run mails the first day's picking, or the not-found picking when every day misses, and reports Done iff the mailer succeeded |
| MedBotService.AnalyzeFetchedEmails | med-bot-service/src/services/med_service.rs:146-159 | past validation, exactly one e-mail goes out iff the run reaches the notification |
| MedBotService.AnalyzeEmails | med-bot-service/src/services/med_service.rs:103-166 | every run sends one e-mail when it reports a result or a mail error, and none otherwise (no target, no candidate, invalid doctor, failed call, panic) |
| MedBotService.AnalyzeEarlyExits | med-bot-service/src/services/med_service.rs:104-123 | no target, no candidate or an invalid candidate is an error, after at most the search call |
| MedBotService.AbsentListPanics | med-bot-service/src/services/med_service.rs:126-132 | a valid candidate without a subject or service list panics at the id unwrap before the fetch |
| MedBotService.UpperSubjectNameRejects | med-bot-service/src/services/med_service.rs:180-202 | a stored subject name with an upper-case letter rejects every candidate that lists subjects or services |
| MedBotService.MedService.AnalyzeAppointment | med-bot-service/src/services/med_service.rs:103-166 | the run's result and the calls it appends are those of `Analyze` |
| RootMedService.ValidateSpec | src/services/med_service.rs:149-185 | the verdict holds iff name, partner and both present-list checks pass. A failed subject check leaves every id as it was. A failed service check does not write the doctor id. Otherwise the ids are the first matches and the candidate id. No partner id is recorded |
| RootMedService.DoctorAppointment.constructor | src/services/med_service.rs:113 | `DoctorAppointment::default()` has all three ids unset |
| RootMedService.MedService.ValidateDoctor | src/services/med_service.rs:149-185 | the in-place checks return `Validate`'s verdict and leave exactly `Validate`'s ids |
| RootMedService.ShiftOutcomeSpec | src/services/med_service.rs:192-218 | a shift yields iff it has slots and one is bookable. The picking has no doctor name, the day's timestamp, the target's day count from the common era, the non-empty bookable slots and the shift's doctor-change record |
| RootMedService.ScanShiftsSpec | src/services/med_service.rs:192-218 | the shift scan yields nothing iff no shift yields; otherwise it is the first shift's picking |
| RootMedService.FindAvailableShiftSpec | src/services/med_service.rs:187-222 | a day without a timestamp yields nothing; otherwise the shifts are scanned iff the timestamp's UTC date is the target |
| RootMedService.ScanDaysSpec | src/services/med_service.rs:132-134 | the day scan yields nothing iff no day yields; otherwise it is the first day's picking |
| RootMedService.AnalyzeFetchedOutcome | src/services/med_service.rs:129-134 | an unparsable target is an error; otherwise the run returns a picking or "No appointment found", the latter iff every day yields nothing, and a returned picking is the first yielding day's |
| RootMedService.AnalyzeCalls | src/services/med_service.rs:99-140 | a run makes at most the search and the three-id fetch, never an e-mail; a result follows both calls |
| RootMedService.AnalyzeFetchedCalls | src/services/med_service.rs:121-126 | past validation, the trace is the search then the fetch |
| RootMedService.AnalyzeEarlyExits | src/services/med_service.rs:100-118 | no target, no candidate or an invalid candidate is an error, after at most the search call |
| RootMedService.MedService.AnalyzeAppointment | src/services/med_service.rs:99-140 | the run's result and the calls it appends are those of `Analyze` |
| Versions.ValidationsAgree | med-bot-service/src/services/med_service.rs:204-214 | both versions give the same verdict and the same subject, service and doctor ids; only the newer one writes the partner id, and only after both list checks pass and the partner matches |
| Versions.ShiftOutcomesAgree | med-bot-service/src/services/med_service.rs:229-257 | the newer version panics iff Info logging is on and a slot lacks a count. Otherwise both versions yield on the same shifts, with the same slots and doctor-change record |

## Left out

- Network I/O. This covers `search_med` and `get_appointments`: request maps, headers, URLs, `reqwest`, and the `serde_json` decoding with its `unwrap` on malformed JSON. Their results are inputs of a run. The model records only the request parameters (search key, city, subject; the three or four ids).
- The MongoDB repositories. Each lookup result is an input. The older crate's lookup key is the fixed name "trần ngọc tài" (src/services/med_service.rs:101); the newer crate's lookup is `get_target_doctor`.
- `get_doctor` in both files. It is a repository lookup followed by `unwrap`, and no part of the decision engine.
- E-mail delivery (`MailService`: HTML templating, SMTP). It is the abstract result `mail` of a run.
- Configuration loaders, both `main.rs` files, the web handlers, the builders and both schedulers. These are bootstrap, endpoints and a timing-dependent loop.
- The `log::info!` calls. The one at med-bot-service/src/services/med_service.rs:233 unwraps the available count. That panic is modelled, conditional on the input `infoLog`; the logger's per-module filtering is not.
- chrono's `parse_from_str`. It is the parameter `parseDate`, which yields a valid calendar date or nothing.
- `NaiveDateTime::from_timestamp_millis(..).unwrap()`. The model does not capture its panic for timestamps outside chrono's year range (about ±262 000 years). Every `i64` is converted by floor division in the UTC zone.
- Text.LowerChar: covers ASCII, Latin-1 and the Vietnamese letters only. Every other character lower-cases to itself, unlike Rust's full Unicode `to_lowercase` (which can also change a string's length).
- Record fields the engine never reads: the search result's tags, trees, hospitals, call-to-action and description, and the appointment response's `detail`.
- The newer crate's model files (its own `DoctorAppointment`/`AppointmentPicking`) are not part of this model. Their shape is taken from the older crate's, with the `partner_id` field the newer service writes and reads.
- The older crate's `AppointmentPicking` type declares string fields where the service stores integers. The model keeps the integers and does not capture that mismatch.
