/**
 * The appointment tree the booking platform returns: days, each with shifts,
 * each with time slots. Field names follow the wire names; fields the
 * decision engine never reads are kept so the records stay recognisable.
 */
module AppointmentModel {
  import opened Wrappers
  import opened Ints

  datatype DoctorChangeInfo = DoctorChangeInfo(
    changeDoctorId: Option<string>,
    changeDoctorName: Option<string>,
    role: Option<string>,
    labelPrefix: Option<string>,
    labelText: Option<string>,   // `label` in the wire record; `label` is a Dafny keyword
    reasonChangeDoctor: Option<string>)

  datatype TimeSlot = TimeSlot(
    timeId: string,
    availableSlot: Option<u32>,
    maxSlot: Option<u32>,
    startTime: string,
    endTime: string,
    roomId: string,
    priorityRoom: u32)

  /** A service offered in a shift (not the search result's service). */
  datatype ShiftService = ShiftService(
    id: string,
    subjectId: Option<string>,
    roomId: Option<string>,
    price: Option<u32>,
    advanced: Option<u32>,
    serviceType: Option<string>,
    roomType: Option<string>)

  datatype Shift = Shift(
    id: string,
    shiftName: Option<string>,
    shiftCode: Option<string>,
    startTime: Option<string>,
    endTime: Option<string>,
    duration: Option<u32>,
    days: Option<string>,
    services: Option<seq<ShiftService>>,
    maxSlot: Option<u32>,
    doctorChange: Option<bool>,
    doctorChangeInfo: Option<DoctorChangeInfo>,
    roomId: Option<string>,
    priorityRoom: Option<u32>,
    timeSlotInDay: Option<seq<TimeSlot>>)

  /** One day of the tree; `date` is an epoch-millisecond timestamp. */
  datatype Day = Day(
    shifts: seq<Shift>,
    date: Option<i64>,
    timeSlots: Option<seq<TimeSlot>>,
    timemiliseconds: Option<i64>)

  datatype AppointmentApiResponse = AppointmentApiResponse(
    id: Option<string>,
    kind: string,
    subType: Option<string>,
    days: seq<Day>,
    end: bool,
    waitingList: Option<bool>)
}

/** One search hit of the platform's doctor search and its nested records. */
module SearchModel {
  import opened Wrappers
  import opened Ints

  datatype Subject = Subject(id: string, kind: Option<string>, name: Option<string>)

  datatype Service = Service(
    id: string,
    kind: Option<string>,
    name: Option<string>,
    price: Option<u32>,
    displayDetail: Option<string>,
    subjectNames: Option<seq<string>>)

  datatype Partner = Partner(
    isCashBack: Option<bool>,
    objectId: string,
    partnerId: Option<string>,
    name: Option<string>,
    address: Option<string>,
    cityId: Option<string>,
    slug: Option<string>,
    newHospitalTypes: Option<seq<u32>>)

  datatype ResultItem = ResultItem(
    id: Option<string>,
    partnerId: Option<string>,
    title: Option<string>,
    role: Option<string>,
    gender: Option<string>,
    category: Option<string>,
    desc: Option<string>,
    desc2: Option<string>,
    price: Option<string>,
    days: Option<string>,
    hospitalAddress: Option<string>,
    subjects: Option<seq<Subject>>,
    services: Option<seq<Service>>,
    data: Option<string>,
    originalPrice: Option<string>,
    partner: Option<Partner>)

  /** One result group of the search response. */
  datatype SearchApiResponse = SearchApiResponse(
    category: string,
    searchKey: string,
    total: Option<u32>,
    results: seq<ResultItem>)
}

/** The stored target: which doctor, subject, service, hospital and date to watch. */
module Documents {
  import opened Wrappers

  datatype Doctor = Doctor(
    id: Option<string>,
    doctorRefId: string,
    doctorName: string,
    subjectRefId: string,
    subjectName: string,
    serviceName: string,
    hospitalId: string,
    cityId: string,
    targetDate: string,
    active: bool)
}
