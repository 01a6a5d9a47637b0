/** The validation sequence of the reservation handler (app.py, lines 98-116), in the
    order the program runs it: the past-date check, the arrival-time check (only for
    today), the cost computation, and only then the all-fields check.
    The clock and the parsing library are inputs: `Clock` holds today's date and the
    current time of day, `Parsers` the library's reading of a date, a time and an integer
    (None where it raises). A Python exception the handler does not catch is `Crashed`. */
module ReservationGate {
  import opened Wrappers
  import Billing

  /** A calendar date as a day number: only the order of dates matters here. */
  type Date = int
  /** A time of day in microseconds since midnight. */
  type TimeOfDay = int

  datatype Clock = Clock(today: Date, now: TimeOfDay)

  datatype Parsers = Parsers(
    date: string -> Option<Date>,        // strptime(…, '%Y-%m-%d').date()
    time: string -> Option<TimeOfDay>,   // strptime(…, '%H:%M').time()
    integer: string -> Option<int>)      // int(…)

  /** The submitted form: a field the browser did not send is None. */
  datatype ReservationForm = ReservationForm(
    fullName: Option<string>,
    phoneNumber: Option<string>,
    email: Option<string>,
    vehicleType: Option<string>,
    plateNumber: Option<string>,
    reservationDate: Option<string>,
    arrivalTime: Option<string>,
    departureTime: Option<string>,
    parkingSlot: Option<string>,
    totalMinutes: Option<string>)

  datatype Rejection = PastDate | ArrivalPassed | MissingFields

  datatype GateOutcome =
    | Rejected(reason: Rejection)
    | Crashed
    | Passed(minutes: int, cost: real)

  /** The error text the program shows for each rejection. It documents the program's strings;
      no contract depends on it. */
  function Message(reason: Rejection): string {
    match reason
    case PastDate => "Cannot select a past date."
    case ArrivalPassed => "Arrival time has already passed."
    case MissingFields => "All fields are required."
  }

  /** Applying a library parser to a form field; an absent field makes it raise too. */
  function ParseField<T>(parse: string -> Option<T>, field: Option<string>): (r: Option<T>)
    ensures field.None? ==> r.None?
    ensures field.Some? ==> r == parse(field.value)
  {
    if field.None? then None else parse(field.value)
  }

  /** Python truthiness of a form field: sent and not empty. */
  predicate Filled(field: Option<string>) {
    field.Some? && field.value != ""
  }

  predicate AllFilled(f: ReservationForm) {
    Filled(f.fullName) && Filled(f.phoneNumber) && Filled(f.email) && Filled(f.vehicleType)
    && Filled(f.plateNumber) && Filled(f.reservationDate) && Filled(f.arrivalTime)
    && Filled(f.departureTime) && Filled(f.parkingSlot) && Filled(f.totalMinutes)
  }

  /** The date and time checks pass: the date is readable and not past, and when it is
      today the arrival time is readable and not earlier than now. */
  predicate OnTime(f: ReservationForm, p: Parsers, clock: Clock) {
    var d := ParseField(p.date, f.reservationDate);
    d.Some? && d.value >= clock.today &&
    (d.value == clock.today ==>
      var t := ParseField(p.time, f.arrivalTime);
      t.Some? && t.value >= clock.now)
  }

  function Validate(f: ReservationForm, p: Parsers, clock: Clock): (r: GateOutcome)
    // A readable date before today is always refused first, whatever else the form holds.
    ensures r == Rejected(PastDate) <==>
              var d := ParseField(p.date, f.reservationDate); d.Some? && d.value < clock.today
    // The arrival time is looked at only for today, and refused only when strictly earlier than now.
    ensures r == Rejected(ArrivalPassed) <==>
              ParseField(p.date, f.reservationDate) == Some(clock.today) &&
              var t := ParseField(p.time, f.arrivalTime); t.Some? && t.value < clock.now
    // The missing-field error is reachable only once both date checks have passed.
    // The cost is computed before the all-fields check: an absent vehicle type or an unreadable
    // duration raises there, so the missing-field error needs both.
    ensures r == Rejected(MissingFields) <==>
              OnTime(f, p, clock) && f.vehicleType.Some? &&
              ParseField(p.integer, f.totalMinutes).Some? && !AllFilled(f)
    // A reservation passes exactly when it is on time, complete and its duration is an integer,
    // and then it is billed by the cost calculator.
    ensures r.Passed? <==>
              OnTime(f, p, clock) && AllFilled(f) && ParseField(p.integer, f.totalMinutes).Some?
    ensures r.Passed? ==>
              Some(r.minutes) == ParseField(p.integer, f.totalMinutes) &&
              r.cost == Billing.Cost(f.vehicleType.value, r.minutes)
  {
    var date := ParseField(p.date, f.reservationDate);
    if date.None? then Crashed
    else if date.value < clock.today then Rejected(PastDate)
    else if date.value == clock.today && ParseField(p.time, f.arrivalTime).None? then Crashed
    else if date.value == clock.today && ParseField(p.time, f.arrivalTime).value < clock.now then
      Rejected(ArrivalPassed)
    else if f.vehicleType.None? then Crashed  // vehicle_type.lower() on None
    else
      var minutes := ParseField(p.integer, f.totalMinutes);
      if minutes.None? then Crashed
      else
        var cost := Billing.Cost(f.vehicleType.value, minutes.value);
        if !AllFilled(f) then Rejected(MissingFields)
        else Passed(minutes.value, cost)
  }

  /** For a later day the arrival time is never read: any other value that is equally
      filled in (even one of no valid format) gives the same outcome. */
  lemma LaterDayIgnoresArrival(f: ReservationForm, p: Parsers, clock: Clock, arrival: Option<string>)
    requires var d := ParseField(p.date, f.reservationDate); d.Some? && d.value > clock.today
    requires Filled(arrival) == Filled(f.arrivalTime)
    ensures Validate(f.(arrivalTime := arrival), p, clock) == Validate(f, p, clock)
  {
  }

  /** Arriving exactly now is not "already passed". */
  lemma ArrivalAtNowPasses(f: ReservationForm, p: Parsers, clock: Clock)
    requires ParseField(p.date, f.reservationDate) == Some(clock.today)
    requires ParseField(p.time, f.arrivalTime) == Some(clock.now)
    ensures Validate(f, p, clock) != Rejected(ArrivalPassed)
    ensures AllFilled(f) && ParseField(p.integer, f.totalMinutes).Some? ==> Validate(f, p, clock).Passed?
  {
  }
}
