/** The state-changing request handlers of app.py over an in-memory store that stands
    for the MySQL tables: reservation submission (lines 84-148), the reservation lookup
    (lines 42-51), payment confirmation (lines 263-303), the receipt page (lines 321-343)
    and signup (lines 226-256). Row ids are assigned as the tables' auto-increment does,
    from 1 upwards. Whether a connection to the store can be opened is an input. */
module ParkingStore {
  import opened Wrappers
  import opened ReservationGate
  import opened Auth

  datatype Status = Pending | Paid

  /** A row of the reservations table. */
  datatype Reservation = Reservation(
    fullName: string, phoneNumber: string, email: string, vehicleType: string,
    plateNumber: string, reservationDate: string, arrivalTime: string,
    departureTime: string, parkingSlot: string, totalMinutes: string,
    totalCost: real, status: Status)

  /** A row of the payments table. */
  datatype Payment = Payment(
    reservationId: nat, paymentMethod: string, accountNumber: string,
    accountName: string, amount: real)

  datatype SubmitOutcome =
    | GateFailed(gate: GateOutcome)            // an error message, or an unhandled exception
    | SubmitCannotConnect
    | ToPayment(reservationId: nat, totalCost: real)

  datatype ConfirmOutcome =
    | ReservationNotFound                       // 404
    | ConfirmCrashed                            // float(total_cost) raised
    | Summary(reservation: Reservation, paymentMethod: string,
              accountName: string, accountNumber: string, totalCost: string)

  datatype ReceiptOutcome =
    | ReceiptUnavailable                        // 500
    | PaymentNotFound                           // 404
    | ReceiptPage(payment: Payment, reservation: Option<Reservation>)

  datatype SignupOutcome =
    | PasswordMismatch
    | SignupCrashed                             // the hash library or the insert raised
    | SignupCannotConnect
    | AccountCreated

  /** The row a submission that passed the gate inserts: status pending and the computed cost. */
  function NewReservation(f: ReservationForm, cost: real): (r: Reservation)
    requires AllFilled(f)
    ensures r.status == Pending && r.totalCost == cost
    ensures Some(r.fullName) == f.fullName && Some(r.phoneNumber) == f.phoneNumber
    ensures Some(r.email) == f.email && Some(r.vehicleType) == f.vehicleType
    ensures Some(r.plateNumber) == f.plateNumber && Some(r.reservationDate) == f.reservationDate
    ensures Some(r.arrivalTime) == f.arrivalTime && Some(r.departureTime) == f.departureTime
    ensures Some(r.parkingSlot) == f.parkingSlot && Some(r.totalMinutes) == f.totalMinutes
  {
    Reservation(f.fullName.value, f.phoneNumber.value, f.email.value, f.vehicleType.value,
                f.plateNumber.value, f.reservationDate.value, f.arrivalTime.value,
                f.departureTime.value, f.parkingSlot.value, f.totalMinutes.value,
                cost, Pending)
  }

  /** Statuses move only from pending to paid; no reservation disappears and nothing
      but the status of a reservation ever changes. */
  ghost predicate Advances(before: map<nat, Reservation>, after: map<nat, Reservation>) {
    forall id :: id in before ==>
      id in after && after[id].(status := Pending) == before[id].(status := Pending) &&
      (before[id].status == Paid ==> after[id].status == Paid)
  }

  predicate EmailTaken(users: map<string, User>, email: string) {
    exists name :: name in users && users[name].email == email
  }

  class Store {
    var users: map<string, User>
    var reservations: map<nat, Reservation>
    var nextReservationId: nat
    var payments: seq<Payment>

    /** Ids below the auto-increment counter; every payment belongs to a reservation that is
        paid; users are keyed by their unique username and carry unique e-mail addresses. */
    ghost predicate Valid()
      reads this
    {
      0 < nextReservationId
      && (forall id :: id in reservations ==> 0 < id < nextReservationId)
      && (forall k :: 0 <= k < |payments| ==>
            payments[k].reservationId in reservations &&
            reservations[payments[k].reservationId].status == Paid)
      && (forall name :: name in users ==> users[name].username == name)
      && (forall a, b :: a in users && b in users && a != b ==> users[a].email != users[b].email)
    }

    constructor ()
      ensures Valid()
      ensures users == map[] && reservations == map[] && payments == [] && nextReservationId == 1
    {
      users, reservations, payments, nextReservationId := map[], map[], [], 1;
    }

    /** get_reservation_by_id: None also when no connection can be opened. */
    function FindReservation(id: nat, storeAvailable: bool): (r: Option<Reservation>)
      reads this
      ensures r.Some? <==> storeAvailable && id in reservations
      ensures r.Some? ==> r.value == reservations[id]
    {
      if storeAvailable && id in reservations then Some(reservations[id]) else None
    }

    /** The POST branch of the reservation page: the gate, then one insert with status pending;
        the redirect to the payment page carries the new id and the computed cost. */
    method SubmitReservation(f: ReservationForm, p: Parsers, clock: Clock, storeAvailable: bool)
      returns (r: SubmitOutcome)
      requires Valid()
      modifies this
      ensures Valid()
      ensures Advances(old(reservations), reservations)
      ensures users == old(users) && payments == old(payments)
      ensures !Validate(f, p, clock).Passed? ==>
                r == GateFailed(Validate(f, p, clock)) && unchanged(this)
      ensures Validate(f, p, clock).Passed? && !storeAvailable ==>
                r == SubmitCannotConnect && unchanged(this)
      ensures Validate(f, p, clock).Passed? && storeAvailable ==>
                r.ToPayment? && r.reservationId !in old(reservations) &&
                r.totalCost == Validate(f, p, clock).cost &&
                reservations == old(reservations)[r.reservationId := NewReservation(f, r.totalCost)]
      // The reservation just submitted is then what the payment page looks up.
      ensures r.ToPayment? ==> FindReservation(r.reservationId, true) == Some(NewReservation(f, r.totalCost))
    {
      var gate := Validate(f, p, clock);
      if !gate.Passed? {
        return GateFailed(gate);
      }
      if !storeAvailable {
        return SubmitCannotConnect;
      }
      var id := nextReservationId;
      reservations := reservations[id := NewReservation(f, gate.cost)];
      nextReservationId := nextReservationId + 1;
      r := ToPayment(id, gate.cost);
    }

    /** confirm_payment. The lookup and the insert use two connections: without the second
        the payment is silently not saved and the summary is shown all the same.
        `toFloat` is Python's float() on the submitted total (None where it raises). */
    method ConfirmPayment(reservationId: nat, totalCost: string, toFloat: string -> Option<real>,
                          paymentMethod: string, accountName: string, accountNumber: string,
                          lookupAvailable: bool, saveAvailable: bool)
      returns (r: ConfirmOutcome)
      requires Valid()
      modifies this
      ensures Valid()
      ensures Advances(old(reservations), reservations)
      ensures users == old(users) && nextReservationId == old(nextReservationId)
      ensures !(lookupAvailable && reservationId in old(reservations)) ==>
                r == ReservationNotFound && unchanged(this)
      ensures lookupAvailable && reservationId in old(reservations) && saveAvailable &&
              toFloat(totalCost).None? ==>
                r == ConfirmCrashed && unchanged(this)
      ensures lookupAvailable && reservationId in old(reservations) && !saveAvailable ==>
                unchanged(this)
      ensures lookupAvailable && reservationId in old(reservations) && saveAvailable &&
              toFloat(totalCost).Some? ==>
                payments == old(payments) + [Payment(reservationId, paymentMethod, accountNumber,
                                                     accountName, toFloat(totalCost).value)] &&
                reservations == old(reservations)[reservationId :=
                                  old(reservations)[reservationId].(status := Paid)]
      // The summary shows the reservation as it was read, before the status update.
      ensures r.Summary? <==>
                lookupAvailable && reservationId in old(reservations) &&
                (saveAvailable ==> toFloat(totalCost).Some?)
      ensures r.Summary? ==>
                r == Summary(old(reservations)[reservationId], paymentMethod, accountName,
                             accountNumber, totalCost)
    {
      var found := FindReservation(reservationId, lookupAvailable);
      if found.None? {
        return ReservationNotFound;
      }
      if saveAvailable {
        var amount := toFloat(totalCost);
        if amount.None? {
          return ConfirmCrashed;
        }
        payments := payments + [Payment(reservationId, paymentMethod, accountNumber,
                                        accountName, amount.value)];
        reservations := reservations[reservationId := reservations[reservationId].(status := Paid)];
      }
      r := Summary(found.value, paymentMethod, accountName, accountNumber, totalCost);
    }

    /** The receipt page: a payment by id, then its reservation. */
    function Receipt(paymentId: nat, storeAvailable: bool): (r: ReceiptOutcome)
      reads this
      ensures r == ReceiptUnavailable <==> !storeAvailable
      ensures r == PaymentNotFound <==> storeAvailable && !(1 <= paymentId <= |payments|)
      ensures r.ReceiptPage? ==> 1 <= paymentId <= |payments| && r.payment == payments[paymentId - 1]
      // In a consistent store every receipt shows its reservation, and that reservation is paid.
      ensures Valid() && r.ReceiptPage? ==>
                r.reservation == Some(reservations[r.payment.reservationId]) &&
                r.reservation.value.status == Paid
    {
      if !storeAvailable then ReceiptUnavailable
      else if !(1 <= paymentId <= |payments|) then PaymentNotFound
      else
        var payment := payments[paymentId - 1];
        ReceiptPage(payment, FindReservation(payment.reservationId, true))
    }

    /** The POST branch of signup. `hashed` is the hashing library's result for the password
        (None where it raises: it refuses an empty or absent password). A duplicate username or
        e-mail violates the table's uniqueness constraints, which the handler does not catch. */
    method Signup(username: string, email: string, password: Option<string>,
                  confirmPassword: Option<string>, hashed: Option<string>, storeAvailable: bool)
      returns (r: SignupOutcome)
      requires Valid()
      modifies this
      ensures Valid()
      ensures reservations == old(reservations) && payments == old(payments)
      ensures nextReservationId == old(nextReservationId)
      ensures password != confirmPassword ==> unchanged(this)
      ensures r == PasswordMismatch <==> password != confirmPassword
      ensures r == SignupCannotConnect <==> password == confirmPassword && hashed.Some? && !storeAvailable
      ensures r == AccountCreated <==>
                password == confirmPassword && hashed.Some? && storeAvailable &&
                username !in old(users) && !EmailTaken(old(users), email)
      ensures r == AccountCreated ==> users == old(users)[username := User(username, email, hashed.value)]
      ensures r != AccountCreated ==> users == old(users)
    {
      if password != confirmPassword {
        return PasswordMismatch;
      }
      if hashed.None? {
        return SignupCrashed;
      }
      if !storeAvailable {
        return SignupCannotConnect;
      }
      if username in users || EmailTaken(users, email) {
        return SignupCrashed;
      }
      users := users[username := User(username, email, hashed.value)];
      r := AccountCreated;
    }
  }

  /** An account created by signup can then sign in: under its own name, exactly when the
      hash check accepts the password against the stored hash. `users` is the users table
      before signup, which Signup extends by exactly this row when it creates the account. */
  lemma SignedUpUserCanLogIn(admin: AdminCredential, users: map<string, User>,
                             username: string, email: string, hash: string,
                             password: Option<string>, checkHash: (string, Option<string>) -> bool)
    requires username != admin.identity && email != admin.identity
    ensures Login(admin, users[username := User(username, email, hash)], true,
                  Some(username), password, checkHash) ==
            (if checkHash(hash, password) then SignedIn(username) else WrongPassword)
  {
  }
}
