/**
 * The `Day` enumeration and getDayType. The enumeration is numeric: its
 * constants stand for the ordinals 0 (Monday) to 6 (Sunday), and the
 * classifier compares ordinals.
 */
module Weekdays {

  datatype Day = Monday | Tuesday | Wednesday | Thursday | Friday | Saturday | Sunday

  /** The number behind each enumeration constant, in declaration order. */
  function Ordinal(day: Day): (n: nat)
    ensures n < 7
  {
    match day
    case Monday => 0
    case Tuesday => 1
    case Wednesday => 2
    case Thursday => 3
    case Friday => 4
    case Saturday => 5
    case Sunday => 6
  }

  /** The inverse of `Ordinal` on 0 to 6. */
  function FromOrdinal(n: nat): (day: Day)
    requires n < 7
    ensures Ordinal(day) == n
  {
    if n == 0 then Monday
    else if n == 1 then Tuesday
    else if n == 2 then Wednesday
    else if n == 3 then Thursday
    else if n == 4 then Friday
    else if n == 5 then Saturday
    else Sunday
  }

  /** The ordinals are a bijection between the seven constants and 0 to 6. */
  lemma OrdinalRoundTrip(day: Day)
    ensures FromOrdinal(Ordinal(day)) == day
  {
    match day
    case Monday =>
    case Tuesday =>
    case Wednesday =>
    case Thursday =>
    case Friday =>
    case Saturday =>
    case Sunday =>
  }

  /**
   * "Weekend" exactly for Sunday; every other constant, Saturday included,
   * is a "Weekday".
   */
  function GetDayType(day: Day): (r: string)
    ensures r == "Weekend" <==> day == Sunday
    ensures r == "Weekday" <==> day != Sunday
  {
    if Ordinal(day) == Ordinal(Sunday) then "Weekend" else "Weekday"
  }
}
