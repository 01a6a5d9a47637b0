# GoPark reservation rules, modelled in Dafny

GoPark is a parking-reservation web application. Visitors sign up, log in, reserve a
slot for a date and a time window, pay with a simulated e-wallet and look up a receipt.
The business rules live in the Flask handlers of `app.py`. This project models them and
proves their properties:

- `billing.dfy` (module `Billing`): the hourly rate by vehicle type and the cost
  rounded up to the next quarter-hour, in exact `real` arithmetic.
- `gate.dfy` (module `ReservationGate`): the validation sequence of a reservation
  submission, in the order the handler runs it. The past date is checked first. The
  arrival time is checked next, and only for today. The cost is computed after that,
  and the all-fields check runs last.
- `auth.dfy` (module `Auth`): the login decision tree.
- `store.dfy` (module `ParkingStore`): a class `Store` that stands for the MySQL tables.
  It holds a map of users, a map of reservations, an auto-increment counter and a
  sequence of payments. Its methods are the submission, payment-confirmation and signup
  handlers, and its functions are the reservation lookup and the receipt page.
- `wrappers.dfy` (module `Wrappers`): the `Option` datatype.

Inputs that stand for the outside world:

- The clock is a parameter: today's date and the current time of day.
- The parsing library is a parameter: `strptime` for the date and the time, and
  Python's `int()` and `float()`. Each is a function that returns None where the
  library raises.
- Password hashing is a parameter. Verification is the uninterpreted `checkHash`.
  Hash generation is its result, or None where the library refuses the password.
- Whether a store connection can be opened is a boolean input.
- The administrator credential is an input, instead of the literals in the program.

The handlers catch no exceptions, so an exception is an outcome of its own, such as
`Crashed`. Examples: `strptime` of an absent date, `.lower()` of an absent vehicle type,
a duplicate signup hitting a uniqueness constraint.

Three behaviours of `app.py` matter for the outcomes:

- The all-fields check runs after the date checks and the cost computation
  (lines 101-116). So a form with no date raises in `strptime` instead of reporting
  missing fields, and an empty duration raises in `int()`.
- Signup does not catch the store's uniqueness error (lines 243-254). A duplicate
  username or e-mail therefore fails with an unhandled exception.
- Payment confirmation opens a second connection to save the payment (lines 276-289).
  When that connection cannot be opened, nothing is saved and the summary page is
  still shown.

## Model

| member | source | states |
|---|---|---|
| Billing.HourlyRate | app.py:110 | the rate is 50 or 30, and it is 50 exactly when the lower-cased vehicle type is car, sedan, suv or hatchback |
| Billing.Lower | app.py:110 | lower-casing keeps the length and lowers each character on its own, position by position |
| Billing.LowerMatchesSpelling | app.py:110 | lower-casing a text gives a given lower-case word exactly when the text has that word's length and, at every position, the letter or its upper case (or the Kelvin sign for k) |
| Billing.RateIsCaseInsensitive | app.py:110 | the rate is 50 iff the vehicle type is some upper/lower-case spelling of a standard type, and 30 iff it spells none of them |
| Billing.Quarters | app.py:111-112 | the number of quarter-hours is the ceiling of minutes/15: 15*(q-1) < minutes <= 15*q |
| Billing.Cost | app.py:111-112 | the formula ceil(hours*4)/4*rate in exact arithmetic; its ensures only rewrites it as the billed quarter-hours priced per minute, and the facts about it are Quarters' ceiling bounds and the CostBounds, CostExactOnQuarterHours, CostMonotone and CostQuarterStep lemmas |
| Billing.CostBounds | app.py:111-112 | minutes*rate/60 <= cost < (minutes+15)*rate/60: never below the exact price, less than a quarter-hour above it |
| Billing.CostExactOnQuarterHours | app.py:111-112 | a duration that is a multiple of 15 minutes is billed exactly minutes*rate/60 |
| Billing.CostMonotone | app.py:111-112 | the cost does not decrease as the duration grows |
| Billing.CostQuarterStep | app.py:111-112 | fifteen more minutes cost exactly a quarter of the hourly rate more |
| Billing.CostExampleCar | app.py:110-112 | a car for 90 minutes costs 75 |
| Billing.CostExampleTruck | app.py:110-112 | a truck (any other type) for 100 minutes costs 52.5 |
| Billing.CostExampleUpperCase | app.py:110-112 | "SUV" in upper case for 60 minutes costs 50, the standard rate |
| ReservationGate.Validate | app.py:98-116 | a readable past date is rejected with the past-date message, whatever else the form holds; the arrival check applies only to today and rejects only arrival < now; the missing-field error arises exactly when both date checks pass, the vehicle type is present and the duration reads as an integer (the cost is computed first), but some field is empty; a form passes iff it is on time, complete and its duration is an integer, and then its cost is the calculator's (the definition ParseField applies a parser to a possibly absent field) |
| ReservationGate.LaterDayIgnoresArrival | app.py:104-108 | for a date after today the arrival time is never read: any equally filled-in value gives the same outcome |
| ReservationGate.ArrivalAtNowPasses | app.py:104-108 | today with arrival exactly now is not rejected as passed, and a complete form then passes |
| Auth.Login | app.py:170-206 | the admin name signs in iff the secret matches, else fails without the store; any other name gets "cannot connect" exactly when the store is unavailable; an unknown name gives "user not found"; a stored user with the admin e-mail is refused whatever the password; otherwise the user signs in under the stored username iff the hash check passes, and gets the wrong-password outcome otherwise (the definition LookUp is the users-table row for the name) |
| Auth.IdentityOnlyOnSuccess | app.py:176-204 | a session identity is set exactly for the admin with the right secret or a stored non-admin user whose hash check passes |
| Auth.AdminNameShadowsStoredUser | app.py:176-182 | a stored account under the administrator's name can never be signed into |
| ParkingStore.NewReservation | app.py:124-136 | the inserted row has status pending, the computed cost and each of the ten submitted fields |
| ParkingStore.Store.SubmitReservation | app.py:84-146 | a form the gate refuses, or no connection, changes nothing; otherwise exactly one new reservation under a fresh id, pending with the gate's cost, and the redirect carries that id and cost; the reservation lookup (FindReservation, lines 42-51) then finds that row under that id; the store stays consistent |
| ParkingStore.Store.ConfirmPayment | app.py:263-303 | an unknown id (or no connection for the lookup) gives not-found and changes nothing; otherwise, if the save connection opens and the total reads as a float, exactly one payment with that reservation id, method, account and amount is appended and that reservation alone becomes paid; if the total is unreadable the handler raises and nothing changes; without the save connection nothing is saved; in both non-raising cases the summary shows the reservation as it was read; every payment keeps a paid reservation |
| ParkingStore.Store.Receipt | app.py:321-343 | no connection gives an error, an unknown payment id not-found; otherwise the page shows that payment, and in a consistent store its reservation, which is paid |
| ParkingStore.Store.Signup | app.py:226-256 | the password-mismatch outcome happens exactly for mismatched passwords, and nothing is stored then; "cannot connect" happens exactly when the passwords match, hashing succeeds and no connection opens; an account is created iff the passwords match, hashing succeeds, a connection opens and neither the username nor the e-mail is taken, and then only that user is added |
| ParkingStore.SignedUpUserCanLogIn | app.py:194-204 | after signup adds a user whose name and e-mail differ from the administrator's, logging in under that name signs in as that name iff the hash check accepts the password, and gives the wrong-password outcome otherwise |

## Left out

- Flask routing, template rendering, redirects and `url_for`: outcomes are datatypes instead.
- The informational pages, the payment page (`payment_dashboard`, lines 155-163), logout and the admin page: they render templates or clear a cookie and hold no rules beyond the lookup that `FindReservation` models.
- MySQL connections and SQL text: an in-memory store and boolean connection inputs stand in for them. The store's own errors other than the uniqueness constraints are not modelled.
- bcrypt: verification is an uninterpreted predicate. Generation is an input. Its salt and its refusal of empty passwords are the library's.
- `datetime.now()` and `strptime`: the clock is a parameter, and so are the parsers. The program reads the clock twice (lines 98 and 105), and the model uses one reading.
- Python's `int()` and `float()`: these parsers are parameters too.
- Cookies: only the resulting identity value is modelled (`Auth.Identity`); its lifetime is not.
- Floating point: costs and amounts are exact reals. For durations below about 2^50 minutes the float formula rounds the same way.
- Billing.LowerChar: models `str.lower()` only for ASCII letters and the Kelvin sign. Other non-ASCII characters are kept as they are. This does not change which texts lower to a standard type.
- Auth.LookUp: exact key equality. The users table's collation may compare names case-insensitively, and that is not modelled.
- Auth.Login: the hash check takes the password as given. If the hashing library raises on an absent password, the model gives no separate outcome for that.
- Store.SubmitReservation: the store's own type coercions when inserting the submitted strings are not modelled.
- Store.ConfirmPayment: the reservation id is taken as an already-converted number. MySQL's coercion of the submitted string, and a missing form key (an HTTP 400), are not modelled.
- Store.Signup: username and e-mail are taken as sent. An absent username or e-mail field is not modelled, since that depends on the table schema.
- Store.Signup: the uniqueness tests on username and e-mail that stand for the table's UNIQUE constraints use exact string equality. A case-insensitive collation would also refuse a name or e-mail that differs only in case, and that folding is not modelled.
- No rule is added that the source does not have: no check that the paid amount equals the reservation's cost, no guard on negative minutes, no refusal to re-pay a paid reservation.
- Concurrency: handlers run one at a time. The payment insert and the status update are one transaction with a single commit (lines 280-287), and the model treats the pair as atomic. Interleaving of concurrent requests is not modelled.
