/** The cost calculator of the reservation handler (app.py, lines 110-112):
    the hourly rate chosen by vehicle type, and the duration rounded up to the next
    quarter-hour. Amounts are exact `real`s instead of the program's floats. */
module Billing {

  /** The vehicle types billed at the higher rate, as the program spells them (lower case). */
  const StandardTypes: seq<string> := ["car", "sedan", "suv", "hatchback"]

  const StandardRate: int := 50
  const OtherRate: int := 30

  /** One character of Python's `str.lower()`, as far as it can matter for the rate:
      ASCII upper-case letters, and the Kelvin sign U+212A, whose lower case is 'k'.
      Every other character lowers to something that is not an ASCII letter
      (or U+0130, to "i" plus a combining dot, and no standard type has an 'i'). */
  function LowerChar(c: char): char {
    if 'A' <= c <= 'Z' then (c as int + 32) as char
    else if c == '\U{212A}' then 'k'
    else c
  }

  /** Python's `str.lower()`, character by character. */
  function Lower(s: string): (r: string)
    ensures |r| == |s|
    ensures forall i :: 0 <= i < |s| ==> r[i] == LowerChar(s[i])
  {
    if s == [] then [] else [LowerChar(s[0])] + Lower(s[1..])
  }

  predicate IsStandardVehicle(vehicleType: string) {
    Lower(vehicleType) in StandardTypes
  }

  /** The hourly rate: 50 for a car, sedan, SUV or hatchback, 30 for anything else. */
  function HourlyRate(vehicleType: string): (r: int)
    ensures r == StandardRate || r == OtherRate
    ensures r == StandardRate <==> IsStandardVehicle(vehicleType)
  {
    if IsStandardVehicle(vehicleType) then StandardRate else OtherRate
  }

  // ---------------------------------------------------------------------
  // An independent reading of "matched case-insensitively": the given text has the
  // standard type's length and, at every position, either that letter or its upper case.

  predicate IsLowerAscii(w: string) {
    forall i :: 0 <= i < |w| ==> 'a' <= w[i] <= 'z'
  }

  /** `c` is one way of writing the lower-case letter `l`. */
  predicate CaseVariant(c: char, l: char) {
    c == l || (c as int) + 32 == l as int || (l == 'k' && c == '\U{212A}')
  }

  predicate SpelledAs(v: string, w: string) {
    |v| == |w| && forall i :: 0 <= i < |v| ==> CaseVariant(v[i], w[i])
  }

  /** Lower-casing gives a lower-case word exactly when the text is a spelling of it. */
  lemma LowerMatchesSpelling(v: string, w: string)
    requires IsLowerAscii(w)
    ensures Lower(v) == w <==> SpelledAs(v, w)
  {
  }

  /** The rate is 50 exactly when the vehicle type is some spelling, in any mix of
      upper and lower case, of one of the standard types; otherwise it is 30. */
  lemma RateIsCaseInsensitive(vehicleType: string)
    ensures HourlyRate(vehicleType) == StandardRate <==>
              exists w :: w in StandardTypes && SpelledAs(vehicleType, w)
    ensures HourlyRate(vehicleType) == OtherRate <==>
              forall w :: w in StandardTypes ==> !SpelledAs(vehicleType, w)
  {
    forall w | w in StandardTypes ensures Lower(vehicleType) == w <==> SpelledAs(vehicleType, w) {
      LowerMatchesSpelling(vehicleType, w);
    }
  }

  // ---------------------------------------------------------------------
  // Quarter-hour rounding

  /** The number of started quarter-hours: `ceil(minutes / 60 * 4)`, that is `ceil(minutes / 15)`.
      Dafny's division by a positive constant rounds down, also for negative minutes. */
  function Quarters(minutes: int): (q: int)
    ensures 15 * (q - 1) < minutes <= 15 * q
  {
    (minutes + 14) / 15
  }

  /** The total cost: `ceil(hours * 4) / 4 * rate`. */
  function Cost(vehicleType: string, minutes: int): (c: real)
    // the billed duration, whole quarter-hours, priced minute by minute at the hourly rate
    ensures c == (15 * Quarters(minutes) * HourlyRate(vehicleType)) as real / 60.0
  {
    Quarters(minutes) as real / 4.0 * HourlyRate(vehicleType) as real
  }

  /** The cost never undercharges the exact duration and overcharges by less than a quarter-hour. */
  lemma CostBounds(vehicleType: string, minutes: int)
    ensures (minutes * HourlyRate(vehicleType)) as real / 60.0 <= Cost(vehicleType, minutes)
    ensures Cost(vehicleType, minutes) < ((minutes + 15) * HourlyRate(vehicleType)) as real / 60.0
  {
  }

  /** A duration that is a whole number of quarter-hours is billed exactly. */
  lemma CostExactOnQuarterHours(vehicleType: string, minutes: int)
    requires minutes % 15 == 0
    ensures Cost(vehicleType, minutes) == (minutes * HourlyRate(vehicleType)) as real / 60.0
  {
    assert Quarters(minutes) * 15 == minutes;
  }

  /** A longer stay never costs less. */
  lemma CostMonotone(vehicleType: string, shorter: int, longer: int)
    requires shorter <= longer
    ensures Cost(vehicleType, shorter) <= Cost(vehicleType, longer)
  {
  }

  /** Fifteen more minutes cost exactly one more quarter of the hourly rate. */
  lemma CostQuarterStep(vehicleType: string, minutes: int)
    ensures Cost(vehicleType, minutes + 15) == Cost(vehicleType, minutes) + HourlyRate(vehicleType) as real / 4.0
  {
    assert Quarters(minutes + 15) == Quarters(minutes) + 1;
  }

  /** Worked example: a car for 90 minutes is billed six quarter-hours at 50 an hour. */
  lemma CostExampleCar()
    ensures Cost("car", 90) == 75.0
  {
    assert Lower("car") == "car";
  }

  /** Worked example: a truck for 100 minutes is billed seven quarter-hours at 30 an hour. */
  lemma CostExampleTruck()
    ensures Cost("truck", 100) == 52.5
  {
    assert Lower("truck") == "truck";
  }

  /** Worked example: "SUV" in upper case is billed at the standard rate. */
  lemma CostExampleUpperCase()
    ensures Cost("SUV", 60) == 50.0
  {
    assert Lower("SUV") == "suv";
  }
}
