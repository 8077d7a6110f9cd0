/** Time units of the estimator. Hours are the base unit: every quantity is
    computed in hours and converted to the unit the user picked for display. */
module Units {

  /** A value of the unit selector. `Other` stands for every string the
      conversions do not recognise; they treat it as hours. */
  datatype Unit = Days | Hours | Minutes | Other

  const HOURS_PER_DAY: real := 24.0
  const MINUTES_PER_HOUR: real := 60.0

  /** The case of the conversion switch that a selector value falls into:
      only the three exact lower-case names are recognised. */
  function UnitOf(name: string): (u: Unit)
    ensures u == Days <==> name == "days"
    ensures u == Hours <==> name == "hours"
    ensures u == Minutes <==> name == "minutes"
    ensures u == Other <==> name !in {"days", "hours", "minutes"}
  {
    if name == "days" then Days
    else if name == "hours" then Hours
    else if name == "minutes" then Minutes
    else Other
  }

  /** `value`, given in unit `u`, expressed in hours. */
  function ToHours(value: real, u: Unit): (h: real)
    ensures h > 0.0 <==> value > 0.0
    ensures h == 0.0 <==> value == 0.0
  {
    match u
    case Days => value * HOURS_PER_DAY
    case Hours => value
    case Minutes => value / MINUTES_PER_HOUR
    case Other => value
  }

  /** `hours`, a quantity in hours, expressed in unit `u`. */
  function FromHours(hours: real, u: Unit): (v: real)
    ensures v > 0.0 <==> hours > 0.0
    ensures v == 0.0 <==> hours == 0.0
  {
    match u
    case Days => hours / HOURS_PER_DAY
    case Hours => hours
    case Minutes => hours * MINUTES_PER_HOUR
    case Other => hours
  }

  /** Converting to hours and back gives the value the user entered, for
      every unit (the unknown one included, where both are the identity). */
  lemma ToHoursRoundTrip(value: real, u: Unit)
    ensures FromHours(ToHours(value, u), u) == value
  {
  }

  /** Converting from hours and back is the identity as well. */
  lemma FromHoursRoundTrip(hours: real, u: Unit)
    ensures ToHours(FromHours(hours, u), u) == hours
  {
  }

  /** An unrecognised selector value leaves quantities unchanged both ways. */
  lemma UnknownUnitIsIdentity(name: string, value: real)
    requires name !in {"days", "hours", "minutes"}
    ensures ToHours(value, UnitOf(name)) == value
    ensures FromHours(value, UnitOf(name)) == value
  {
  }

  /** Conversion to the display unit keeps the order of quantities, in both
      directions. */
  lemma FromHoursMonotone(a: real, b: real, u: Unit)
    ensures a < b <==> FromHours(a, u) < FromHours(b, u)
    ensures a == b <==> FromHours(a, u) == FromHours(b, u)
  {
  }

  /** Conversion to the display unit is linear: a multiple of the median in
      hours is the same multiple of the median in the display unit. */
  lemma FromHoursScales(k: real, hours: real, u: Unit)
    ensures FromHours(k * hours, u) == k * FromHours(hours, u)
  {
  }

  /** The worked cases of the conversion switch. */
  lemma ConversionExamples()
    ensures ToHours(1.0, Days) == 24.0
    ensures ToHours(60.0, Minutes) == 1.0
    ensures FromHours(24.0, Days) == 1.0
    ensures ToHours(5.0, UnitOf("weeks")) == 5.0
  {
  }
}
