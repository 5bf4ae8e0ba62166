/** The unit tables of lib/config/set-si.config.ts: for a unit name,
    `setDistance`, `setTime` and `setVelocity` return how many of every
    other unit make one of it, and throw on a name they do not list. */
module Units {
  import opened Wrappers

  /** `SIDistance`: one value per distance unit. */
  datatype SIDistance = SIDistance(millimeters: real, centimeters: real, meters: real)

  /** `SITime`: one value per time unit. */
  datatype SITime = SITime(
    nanoseconds: real,
    microseconds: real,
    milliseconds: real,
    seconds: real,
    minutes: real,
    hours: real)

  /** `SIVelocity`: one value per velocity unit, with the source's spelling
      `milimeters`. */
  datatype SIVelocity = SIVelocity(
    milimeters_per_nanosecond: real,
    centimeters_per_nanosecond: real,
    meters_per_nanosecond: real,
    milimeters_per_microsecond: real,
    centimeters_per_microsecond: real,
    meters_per_microsecond: real,
    milimeters_per_millisecond: real,
    centimeters_per_millisecond: real,
    meters_per_millisecond: real,
    milimeters_per_second: real,
    centimeters_per_second: real,
    meters_per_second: real,
    milimeters_per_minute: real,
    centimeters_per_minute: real,
    meters_per_minute: real,
    milimeters_per_hour: real,
    centimeters_per_hour: real,
    meters_per_hour: real)

  /** The names the three switches list. */
  datatype DistanceUnit =
    | Millimeters
    | Centimeters
    | Meters

  datatype TimeUnit =
    | Nanoseconds
    | Microseconds
    | Milliseconds
    | Seconds
    | Minutes
    | Hours

  datatype VelocityUnit =
    | MilimetersPerNanosecond
    | CentimetersPerNanosecond
    | MetersPerNanosecond
    | MilimetersPerMicrosecond
    | CentimetersPerMicrosecond
    | MetersPerMicrosecond
    | MilimetersPerMillisecond
    | CentimetersPerMillisecond
    | MetersPerMillisecond
    | MilimetersPerSecond
    | CentimetersPerSecond
    | MetersPerSecond
    | MilimetersPerMinute
    | CentimetersPerMinute
    | MetersPerMinute
    | MilimetersPerHour
    | CentimetersPerHour
    | MetersPerHour

  function DistanceUnitName(u: DistanceUnit): string
  {
    match u
    case Millimeters => "millimeters"
    case Centimeters => "centimeters"
    case Meters => "meters"
  }

  function TimeUnitName(u: TimeUnit): string
  {
    match u
    case Nanoseconds => "nanoseconds"
    case Microseconds => "microseconds"
    case Milliseconds => "milliseconds"
    case Seconds => "seconds"
    case Minutes => "minutes"
    case Hours => "hours"
  }

  function VelocityUnitName(u: VelocityUnit): string
  {
    match u
    case MilimetersPerNanosecond => "milimeters_per_nanosecond"
    case CentimetersPerNanosecond => "centimeters_per_nanosecond"
    case MetersPerNanosecond => "meters_per_nanosecond"
    case MilimetersPerMicrosecond => "milimeters_per_microsecond"
    case CentimetersPerMicrosecond => "centimeters_per_microsecond"
    case MetersPerMicrosecond => "meters_per_microsecond"
    case MilimetersPerMillisecond => "milimeters_per_millisecond"
    case CentimetersPerMillisecond => "centimeters_per_millisecond"
    case MetersPerMillisecond => "meters_per_millisecond"
    case MilimetersPerSecond => "milimeters_per_second"
    case CentimetersPerSecond => "centimeters_per_second"
    case MetersPerSecond => "meters_per_second"
    case MilimetersPerMinute => "milimeters_per_minute"
    case CentimetersPerMinute => "centimeters_per_minute"
    case MetersPerMinute => "meters_per_minute"
    case MilimetersPerHour => "milimeters_per_hour"
    case CentimetersPerHour => "centimeters_per_hour"
    case MetersPerHour => "meters_per_hour"
  }

  /** The unit a name stands for, if any: the labels of the `switch`, tried
      in its order. */
  function DistanceUnitNamed(s: string): (u: Option<DistanceUnit>)
    ensures u.Some? ==> DistanceUnitName(u.value) == s
  {
    if s == "centimeters" then Some(Centimeters)
    else if s == "meters" then Some(Meters)
    else if s == "millimeters" then Some(Millimeters)
    else None
  }

  /** The unit a name stands for, if any. */
  function TimeUnitNamed(s: string): (u: Option<TimeUnit>)
    ensures u.Some? ==> TimeUnitName(u.value) == s
  {
    if s == "nanoseconds" then Some(Nanoseconds)
    else if s == "microseconds" then Some(Microseconds)
    else if s == "milliseconds" then Some(Milliseconds)
    else if s == "seconds" then Some(Seconds)
    else if s == "minutes" then Some(Minutes)
    else if s == "hours" then Some(Hours)
    else None
  }

  /** The unit a name stands for, if any. The labels are tried grouped by
      their length, which picks the same label as trying them in order since
      no two are equal. */
  function VelocityUnitNamed(s: string): (u: Option<VelocityUnit>)
    ensures u.Some? ==> VelocityUnitName(u.value) == s
  {
    if |s| == 15 then
      if s == "meters_per_hour" then Some(MetersPerHour)
      else None
    else if |s| == 17 then
      if s == "meters_per_minute" then Some(MetersPerMinute)
      else if s == "meters_per_second" then Some(MetersPerSecond)
      else None
    else if |s| == 19 then
      if s == "milimeters_per_hour" then Some(MilimetersPerHour)
      else None
    else if |s| == 20 then
      if s == "centimeters_per_hour" then Some(CentimetersPerHour)
      else None
    else if |s| == 21 then
      if s == "meters_per_nanosecond" then Some(MetersPerNanosecond)
      else if s == "milimeters_per_minute" then Some(MilimetersPerMinute)
      else if s == "milimeters_per_second" then Some(MilimetersPerSecond)
      else None
    else if |s| == 22 then
      if s == "centimeters_per_minute" then Some(CentimetersPerMinute)
      else if s == "centimeters_per_second" then Some(CentimetersPerSecond)
      else if s == "meters_per_microsecond" then Some(MetersPerMicrosecond)
      else if s == "meters_per_millisecond" then Some(MetersPerMillisecond)
      else None
    else if |s| == 25 then
      if s == "milimeters_per_nanosecond" then Some(MilimetersPerNanosecond)
      else None
    else if |s| == 26 then
      if s == "centimeters_per_nanosecond" then Some(CentimetersPerNanosecond)
      else if s == "milimeters_per_microsecond" then Some(MilimetersPerMicrosecond)
      else if s == "milimeters_per_millisecond" then Some(MilimetersPerMillisecond)
      else None
    else if |s| == 27 then
      if s == "centimeters_per_microsecond" then Some(CentimetersPerMicrosecond)
      else if s == "centimeters_per_millisecond" then Some(CentimetersPerMillisecond)
      else None
    else None
  }

  /** Field `u` of a table. */
  function DistanceField(f: SIDistance, u: DistanceUnit): real
  {
    match u
    case Millimeters => f.millimeters
    case Centimeters => f.centimeters
    case Meters => f.meters
  }

  function TimeField(f: SITime, u: TimeUnit): real
  {
    match u
    case Nanoseconds => f.nanoseconds
    case Microseconds => f.microseconds
    case Milliseconds => f.milliseconds
    case Seconds => f.seconds
    case Minutes => f.minutes
    case Hours => f.hours
  }

  function VelocityField(f: SIVelocity, u: VelocityUnit): real
  {
    match u
    case MilimetersPerNanosecond => f.milimeters_per_nanosecond
    case CentimetersPerNanosecond => f.centimeters_per_nanosecond
    case MetersPerNanosecond => f.meters_per_nanosecond
    case MilimetersPerMicrosecond => f.milimeters_per_microsecond
    case CentimetersPerMicrosecond => f.centimeters_per_microsecond
    case MetersPerMicrosecond => f.meters_per_microsecond
    case MilimetersPerMillisecond => f.milimeters_per_millisecond
    case CentimetersPerMillisecond => f.centimeters_per_millisecond
    case MetersPerMillisecond => f.meters_per_millisecond
    case MilimetersPerSecond => f.milimeters_per_second
    case CentimetersPerSecond => f.centimeters_per_second
    case MetersPerSecond => f.meters_per_second
    case MilimetersPerMinute => f.milimeters_per_minute
    case CentimetersPerMinute => f.centimeters_per_minute
    case MetersPerMinute => f.meters_per_minute
    case MilimetersPerHour => f.milimeters_per_hour
    case CentimetersPerHour => f.centimeters_per_hour
    case MetersPerHour => f.meters_per_hour
  }

  /** The object literal `setDistance` returns for a unit: field `v` is the
      number of `v` in one `u`, and the unit's own field is 1. */
  function DistanceFactors(u: DistanceUnit): (f: SIDistance)
    ensures DistanceField(f, u) == 1.0
  {
    match u
    case Centimeters => SIDistance(
      millimeters := 10.0,
      centimeters := 1.0,
      meters := 0.01)
    case Meters => SIDistance(
      millimeters := 1000.0,
      centimeters := 100.0,
      meters := 1.0)
    case Millimeters => SIDistance(
      millimeters := 1.0,
      centimeters := 0.1,
      meters := 0.001)
  }

  /** The object literal `setTime` returns for a unit; its own field is 1. */
  function TimeFactors(u: TimeUnit): (f: SITime)
    ensures TimeField(f, u) == 1.0
  {
    match u
    case Nanoseconds => SITime(
      nanoseconds := 1.0,
      microseconds := 0.001,
      milliseconds := 0.000001,
      seconds := 0.000000001,
      minutes := 0.000000000016666666666666667,
      hours := 0.0000000000002777777777777778)
    case Microseconds => SITime(
      nanoseconds := 1000.0,
      microseconds := 1.0,
      milliseconds := 0.001,
      seconds := 0.000001,
      minutes := 0.000000016666666666666667,
      hours := 0.0000000002777777777777778)
    case Milliseconds => SITime(
      nanoseconds := 1000000.0,
      microseconds := 1000.0,
      milliseconds := 1.0,
      seconds := 0.001,
      minutes := 0.000016666666666666667,
      hours := 0.0000002777777777777778)
    case Seconds => SITime(
      nanoseconds := 1000000000.0,
      microseconds := 1000000.0,
      milliseconds := 1000.0,
      seconds := 1.0,
      minutes := 0.016666666666666666,
      hours := 0.0002777777777777778)
    case Minutes => SITime(
      nanoseconds := 60000000000.0,
      microseconds := 60000000.0,
      milliseconds := 60000.0,
      seconds := 60.0,
      minutes := 1.0,
      hours := 0.016666666666666666)
    case Hours => SITime(
      nanoseconds := 3600000000000.0,
      microseconds := 3600000000.0,
      milliseconds := 3600000.0,
      seconds := 3600.0,
      minutes := 60.0,
      hours := 1.0)
  }

  /** The object literal `setVelocity` returns for a unit; every factor in
      it is positive. */
  function VelocityFactors(u: VelocityUnit): (f: SIVelocity)
    ensures forall v :: VelocityField(f, v) > 0.0
  {
    match u
    case CentimetersPerHour => SIVelocity(
      milimeters_per_nanosecond := 0.0000002777777777777778,
      centimeters_per_nanosecond := 0.0000000002777777777777778,
      meters_per_nanosecond := 0.00000000000002777777777777778,
      milimeters_per_microsecond := 0.002777777777777778,
      centimeters_per_microsecond := 0.0002777777777777778,
      meters_per_microsecond := 0.00000002777777777777778,
      milimeters_per_millisecond := 0.00016666666666666666,
      centimeters_per_millisecond := 0.000016666666666666666,
      meters_per_millisecond := 0.0000000016666666666666667,
      milimeters_per_second := 0.002777777777777778,
      centimeters_per_second := 0.0002777777777777778,
      meters_per_second := 0.0000002777777777777778,
      milimeters_per_minute := 0.16666666666666666,
      centimeters_per_minute := 0.016666666666666666,
      meters_per_minute := 0.000016666666666666667,
      milimeters_per_hour := 10.0,
      centimeters_per_hour := 1.0,
      meters_per_hour := 0.01)
    case CentimetersPerMicrosecond => SIVelocity(
      milimeters_per_nanosecond := 1000.0,
      centimeters_per_nanosecond := 10000.0,
      meters_per_nanosecond := 0.00001,
      milimeters_per_microsecond := 100.0,
      centimeters_per_microsecond := 1.0,
      meters_per_microsecond := 0.0001,
      milimeters_per_millisecond := 6.0,
      centimeters_per_millisecond := 0.06,
      meters_per_millisecond := 0.006,
      milimeters_per_second := 1000.0,
      centimeters_per_second := 1000000.0,
      meters_per_second := 0.1,
      milimeters_per_minute := 6000.0,
      centimeters_per_minute := 60000.0,
      meters_per_minute := 60.0,
      milimeters_per_hour := 360000.0,
      centimeters_per_hour := 3600000.0,
      meters_per_hour := 360.0)
    case CentimetersPerMillisecond => SIVelocity(
      milimeters_per_nanosecond := 16666.666666666668,
      centimeters_per_nanosecond := 16666.666666666668,
      meters_per_nanosecond := 1666.6666666666667,
      milimeters_per_microsecond := 16.666666666666668,
      centimeters_per_microsecond := 16.666666666666668,
      meters_per_microsecond := 0.016666666666666666,
      milimeters_per_millisecond := 1.0,
      centimeters_per_millisecond := 1.0,
      meters_per_millisecond := 0.001,
      milimeters_per_second := 1000.0,
      centimeters_per_second := 1000.0,
      meters_per_second := 1.0,
      milimeters_per_minute := 1000.0,
      centimeters_per_minute := 1000.0,
      meters_per_minute := 1.0,
      milimeters_per_hour := 60000.0,
      centimeters_per_hour := 60000.0,
      meters_per_hour := 60.0)
    case CentimetersPerMinute => SIVelocity(
      milimeters_per_nanosecond := 1666.6666666666667,
      centimeters_per_nanosecond := 1666.6666666666667,
      meters_per_nanosecond := 1.6666666666666667,
      milimeters_per_microsecond := 0.016666666666666666,
      centimeters_per_microsecond := 0.016666666666666666,
      meters_per_microsecond := 0.000016666666666666667,
      milimeters_per_millisecond := 0.001,
      centimeters_per_millisecond := 0.001,
      meters_per_millisecond := 0.000001,
      milimeters_per_second := 1.0,
      centimeters_per_second := 1.0,
      meters_per_second := 0.01,
      milimeters_per_minute := 1.0,
      centimeters_per_minute := 1.0,
      meters_per_minute := 0.01,
      milimeters_per_hour := 60.0,
      centimeters_per_hour := 60.0,
      meters_per_hour := 0.06)
    case CentimetersPerNanosecond => SIVelocity(
      milimeters_per_nanosecond := 10000.0,
      centimeters_per_nanosecond := 1.0,
      meters_per_nanosecond := 0.0001,
      milimeters_per_microsecond := 10000000.0,
      centimeters_per_microsecond := 10000.0,
      meters_per_microsecond := 100.0,
      milimeters_per_millisecond := 600000.0,
      centimeters_per_millisecond := 600.0,
      meters_per_millisecond := 6.0,
      milimeters_per_second := 1000000.0,
      centimeters_per_second := 1000000.0,
      meters_per_second := 1000.0,
      milimeters_per_minute := 600000000.0,
      centimeters_per_minute := 600000000.0,
      meters_per_minute := 60000000.0,
      milimeters_per_hour := 36000000000000.0,
      centimeters_per_hour := 36000000000000.0,
      meters_per_hour := 36000000000.0)
    case CentimetersPerSecond => SIVelocity(
      milimeters_per_nanosecond := 100000.0,
      centimeters_per_nanosecond := 10000.0,
      meters_per_nanosecond := 100.0,
      milimeters_per_microsecond := 10.0,
      centimeters_per_microsecond := 1.0,
      meters_per_microsecond := 0.001,
      milimeters_per_millisecond := 600.0,
      centimeters_per_millisecond := 0.06,
      meters_per_millisecond := 0.06,
      milimeters_per_second := 1000.0,
      centimeters_per_second := 100.0,
      meters_per_second := 1.0,
      milimeters_per_minute := 600.0,
      centimeters_per_minute := 60.0,
      meters_per_minute := 0.06,
      milimeters_per_hour := 36000.0,
      centimeters_per_hour := 3600.0,
      meters_per_hour := 3.6)
    case MetersPerHour => SIVelocity(
      milimeters_per_nanosecond := 0.0000002777777777777778,
      centimeters_per_nanosecond := 0.00000000002777777777777778,
      meters_per_nanosecond := 0.00000000000002777777777777778,
      milimeters_per_microsecond := 0.0002777777777777778,
      centimeters_per_microsecond := 0.00002777777777777778,
      meters_per_microsecond := 0.000000002777777777777778,
      milimeters_per_millisecond := 0.000016666666666666666,
      centimeters_per_millisecond := 0.0000016666666666666668,
      meters_per_millisecond := 0.00000000016666666666666667,
      milimeters_per_second := 0.002777777777777778,
      centimeters_per_second := 0.0002777777777777778,
      meters_per_second := 0.0000002777777777777778,
      milimeters_per_minute := 0.016666666666666666,
      centimeters_per_minute := 0.16666666666666666,
      meters_per_minute := 0.016666666666666666,
      milimeters_per_hour := 1000.0,
      centimeters_per_hour := 100.0,
      meters_per_hour := 1.0)
    case MetersPerMicrosecond => SIVelocity(
      milimeters_per_nanosecond := 1000000.0,
      centimeters_per_nanosecond := 10000000.0,
      meters_per_nanosecond := 10000.0,
      milimeters_per_microsecond := 1000.0,
      centimeters_per_microsecond := 100.0,
      meters_per_microsecond := 1.0,
      milimeters_per_millisecond := 60.0,
      centimeters_per_millisecond := 6.0,
      meters_per_millisecond := 0.06,
      milimeters_per_second := 100000.0,
      centimeters_per_second := 1000000.0,
      meters_per_second := 1000.0,
      milimeters_per_minute := 60000.0,
      centimeters_per_minute := 60000000.0,
      meters_per_minute := 60.0,
      milimeters_per_hour := 3600000.0,
      centimeters_per_hour := 360000000.0,
      meters_per_hour := 3600.0)
    case MetersPerMillisecond => SIVelocity(
      milimeters_per_nanosecond := 100000.0,
      centimeters_per_nanosecond := 100000.0,
      meters_per_nanosecond := 10000.0,
      milimeters_per_microsecond := 1000.0,
      centimeters_per_microsecond := 1000.0,
      meters_per_microsecond := 0.1,
      milimeters_per_millisecond := 60.0,
      centimeters_per_millisecond := 60.0,
      meters_per_millisecond := 0.006,
      milimeters_per_second := 10000.0,
      centimeters_per_second := 10000.0,
      meters_per_second := 1.0,
      milimeters_per_minute := 600000.0,
      centimeters_per_minute := 600000.0,
      meters_per_minute := 60.0,
      milimeters_per_hour := 3600000.0,
      centimeters_per_hour := 3600000.0,
      meters_per_hour := 360.0)
    case MetersPerMinute => SIVelocity(
      milimeters_per_nanosecond := 166666.66666666666,
      centimeters_per_nanosecond := 166666.66666666666,
      meters_per_nanosecond := 166.66666666666666,
      milimeters_per_microsecond := 16.666666666666668,
      centimeters_per_microsecond := 1.6666666666666667,
      meters_per_microsecond := 0.016666666666666666,
      milimeters_per_millisecond := 1.0,
      centimeters_per_millisecond := 0.1,
      meters_per_millisecond := 0.001,
      milimeters_per_second := 100.0,
      centimeters_per_second := 100.0,
      meters_per_second := 0.1,
      milimeters_per_minute := 1000.0,
      centimeters_per_minute := 1000.0,
      meters_per_minute := 1.0,
      milimeters_per_hour := 60000.0,
      centimeters_per_hour := 6000.0,
      meters_per_hour := 60.0)
    case MetersPerNanosecond => SIVelocity(
      milimeters_per_nanosecond := 100.0,
      centimeters_per_nanosecond := 10.0,
      meters_per_nanosecond := 1.0,
      milimeters_per_microsecond := 100000000.0,
      centimeters_per_microsecond := 100000.0,
      meters_per_microsecond := 100000.0,
      milimeters_per_millisecond := 6000000.0,
      centimeters_per_millisecond := 6000.0,
      meters_per_millisecond := 6000.0,
      milimeters_per_second := 100000.0,
      centimeters_per_second := 1000000.0,
      meters_per_second := 1000.0,
      milimeters_per_minute := 600000000.0,
      centimeters_per_minute := 600000000.0,
      meters_per_minute := 60000000.0,
      milimeters_per_hour := 360000000000.0,
      centimeters_per_hour := 360000000000.0,
      meters_per_hour := 360000000.0)
    case MetersPerSecond => SIVelocity(
      milimeters_per_nanosecond := 1000000.0,
      centimeters_per_nanosecond := 10000000.0,
      meters_per_nanosecond := 10000.0,
      milimeters_per_microsecond := 1000.0,
      centimeters_per_microsecond := 100.0,
      meters_per_microsecond := 1.0,
      milimeters_per_millisecond := 60.0,
      centimeters_per_millisecond := 6.0,
      meters_per_millisecond := 0.06,
      milimeters_per_second := 100000.0,
      centimeters_per_second := 10000.0,
      meters_per_second := 1000.0,
      milimeters_per_minute := 60000.0,
      centimeters_per_minute := 60000.0,
      meters_per_minute := 60.0,
      milimeters_per_hour := 3600000.0,
      centimeters_per_hour := 360000.0,
      meters_per_hour := 3600.0)
    case MilimetersPerHour => SIVelocity(
      milimeters_per_nanosecond := 0.0000002777777777777778,
      centimeters_per_nanosecond := 0.0000002777777777777778,
      meters_per_nanosecond := 0.00000000000002777777777777778,
      milimeters_per_microsecond := 0.0002777777777777778,
      centimeters_per_microsecond := 0.002777777777777778,
      meters_per_microsecond := 0.000000002777777777777778,
      milimeters_per_millisecond := 0.000016666666666666666,
      centimeters_per_millisecond := 0.00016666666666666666,
      meters_per_millisecond := 0.00000000016666666666666667,
      milimeters_per_second := 0.002777777777777778,
      centimeters_per_second := 0.002777777777777778,
      meters_per_second := 0.0000002777777777777778,
      milimeters_per_minute := 0.016666666666666666,
      centimeters_per_minute := 0.16666666666666666,
      meters_per_minute := 0.000016666666666666667,
      milimeters_per_hour := 1.0,
      centimeters_per_hour := 10.0,
      meters_per_hour := 0.001)
    case MilimetersPerMicrosecond => SIVelocity(
      milimeters_per_nanosecond := 100.0,
      centimeters_per_nanosecond := 1000000.0,
      meters_per_nanosecond := 1000.0,
      milimeters_per_microsecond := 10.0,
      centimeters_per_microsecond := 10000.0,
      meters_per_microsecond := 100.0,
      milimeters_per_millisecond := 0.6,
      centimeters_per_millisecond := 600.0,
      meters_per_millisecond := 6.0,
      milimeters_per_second := 100.0,
      centimeters_per_second := 100000.0,
      meters_per_second := 1000.0,
      milimeters_per_minute := 600.0,
      centimeters_per_minute := 6000000.0,
      meters_per_minute := 6000.0,
      milimeters_per_hour := 36000.0,
      centimeters_per_hour := 36000000.0,
      meters_per_hour := 360000.0)
    case MilimetersPerMillisecond => SIVelocity(
      milimeters_per_nanosecond := 10.0,
      centimeters_per_nanosecond := 10000.0,
      meters_per_nanosecond := 10.0,
      milimeters_per_microsecond := 0.1,
      centimeters_per_microsecond := 100.0,
      meters_per_microsecond := 0.1,
      milimeters_per_millisecond := 0.006,
      centimeters_per_millisecond := 6.0,
      meters_per_millisecond := 0.006,
      milimeters_per_second := 1.0,
      centimeters_per_second := 1000.0,
      meters_per_second := 1.0,
      milimeters_per_minute := 60.0,
      centimeters_per_minute := 60000.0,
      meters_per_minute := 60.0,
      milimeters_per_hour := 360.0,
      centimeters_per_hour := 360000.0,
      meters_per_hour := 360.0)
    case MilimetersPerMinute => SIVelocity(
      milimeters_per_nanosecond := 166.66666666666666,
      centimeters_per_nanosecond := 166.66666666666666,
      meters_per_nanosecond := 1.6666666666666667,
      milimeters_per_microsecond := 0.016666666666666666,
      centimeters_per_microsecond := 0.16666666666666666,
      meters_per_microsecond := 0.000016666666666666667,
      milimeters_per_millisecond := 0.001,
      centimeters_per_millisecond := 0.01,
      meters_per_millisecond := 0.000001,
      milimeters_per_second := 100.0,
      centimeters_per_second := 100.0,
      meters_per_second := 0.01,
      milimeters_per_minute := 1.0,
      centimeters_per_minute := 1000.0,
      meters_per_minute := 0.01,
      milimeters_per_hour := 60.0,
      centimeters_per_hour := 600.0,
      meters_per_hour := 0.06)
    case MilimetersPerNanosecond => SIVelocity(
      milimeters_per_nanosecond := 1.0,
      centimeters_per_nanosecond := 1.0,
      meters_per_nanosecond := 0.0001,
      milimeters_per_microsecond := 10000.0,
      centimeters_per_microsecond := 10000.0,
      meters_per_microsecond := 10000.0,
      milimeters_per_millisecond := 600.0,
      centimeters_per_millisecond := 600.0,
      meters_per_millisecond := 600.0,
      milimeters_per_second := 1000.0,
      centimeters_per_second := 1000000.0,
      meters_per_second := 1000.0,
      milimeters_per_minute := 600000000.0,
      centimeters_per_minute := 600000000.0,
      meters_per_minute := 600000.0,
      milimeters_per_hour := 36000000000.0,
      centimeters_per_hour := 36000000000.0,
      meters_per_hour := 36000000.0)
    case MilimetersPerSecond => SIVelocity(
      milimeters_per_nanosecond := 10.0,
      centimeters_per_nanosecond := 10000.0,
      meters_per_nanosecond := 10.0,
      milimeters_per_microsecond := 0.1,
      centimeters_per_microsecond := 100.0,
      meters_per_microsecond := 0.1,
      milimeters_per_millisecond := 0.006,
      centimeters_per_millisecond := 6.0,
      meters_per_millisecond := 0.006,
      milimeters_per_second := 1.0,
      centimeters_per_second := 1000.0,
      meters_per_second := 1.0,
      milimeters_per_minute := 60.0,
      centimeters_per_minute := 60000.0,
      meters_per_minute := 60.0,
      milimeters_per_hour := 360.0,
      centimeters_per_hour := 360000.0,
      meters_per_hour := 360.0)
  }

  /** `setDistance`: the table of a listed unit, and the error
      `Invalid distance unit` for any other name. */
  function SetDistance(distance: string): (r: Result<SIDistance, string>)
    ensures forall u :: distance == DistanceUnitName(u) ==> r == Success(DistanceFactors(u))
    ensures (forall u :: distance != DistanceUnitName(u)) ==> r == Failure("Invalid distance unit")
  {
    DistanceUnitNamesAreDistinct();
    match DistanceUnitNamed(distance)
    case Some(u) => Success(DistanceFactors(u))
    case None => Failure("Invalid distance unit")
  }

  /** `setTime`: the table of a listed unit, and the error
      `Invalid time unit` for any other name. */
  function SetTime(time: string): (r: Result<SITime, string>)
    ensures forall u :: time == TimeUnitName(u) ==> r == Success(TimeFactors(u))
    ensures (forall u :: time != TimeUnitName(u)) ==> r == Failure("Invalid time unit")
  {
    TimeUnitNamesAreDistinct();
    match TimeUnitNamed(time)
    case Some(u) => Success(TimeFactors(u))
    case None => Failure("Invalid time unit")
  }

  /** `setVelocity`: the table of a listed unit, and the error
      `Invalid velocity unit` for any other name. */
  function SetVelocity(velocity: string): (r: Result<SIVelocity, string>)
    ensures forall u :: velocity == VelocityUnitName(u) ==> r == Success(VelocityFactors(u))
    ensures (forall u :: velocity != VelocityUnitName(u)) ==> r == Failure("Invalid velocity unit")
  {
    VelocityUnitNamesAreDistinct();
    match VelocityUnitNamed(velocity)
    case Some(u) => Success(VelocityFactors(u))
    case None => Failure("Invalid velocity unit")
  }

  /** Every distance unit's name is read back as that unit. */
  lemma DistanceUnitNameRoundTrip(u: DistanceUnit)
    ensures DistanceUnitNamed(DistanceUnitName(u)) == Some(u)
  {
  }

  /** No two distance units share a name. */
  lemma DistanceUnitNamesAreDistinct()
    ensures forall u, v :: DistanceUnitName(u) == DistanceUnitName(v) ==> u == v
  {
    forall u, v | DistanceUnitName(u) == DistanceUnitName(v)
      ensures u == v
    {
      DistanceUnitNameRoundTrip(u);
      DistanceUnitNameRoundTrip(v);
    }
  }

  /** Every time unit's name is read back as that unit. */
  lemma TimeUnitNameRoundTrip(u: TimeUnit)
    ensures TimeUnitNamed(TimeUnitName(u)) == Some(u)
  {
  }

  /** No two time units share a name. */
  lemma TimeUnitNamesAreDistinct()
    ensures forall u, v :: TimeUnitName(u) == TimeUnitName(v) ==> u == v
  {
    forall u, v | TimeUnitName(u) == TimeUnitName(v)
      ensures u == v
    {
      TimeUnitNameRoundTrip(u);
      TimeUnitNameRoundTrip(v);
    }
  }

  /** Every velocity unit's name is read back as that unit. */
  lemma VelocityUnitNameRoundTrip(u: VelocityUnit)
    ensures VelocityUnitNamed(VelocityUnitName(u)) == Some(u)
  {
  }

  /** No two velocity units share a name. */
  lemma VelocityUnitNamesAreDistinct()
    ensures forall u, v :: VelocityUnitName(u) == VelocityUnitName(v) ==> u == v
  {
    forall u, v | VelocityUnitName(u) == VelocityUnitName(v)
      ensures u == v
    {
      VelocityUnitNameRoundTrip(u);
      VelocityUnitNameRoundTrip(v);
    }
  }

  /** Converting a distance from `u` to `v` and back gives 1: the two
      factors are exact reciprocals. */
  lemma DistanceFactorsAreReciprocal(u: DistanceUnit, v: DistanceUnit)
    ensures DistanceField(DistanceFactors(u), v) * DistanceField(DistanceFactors(v), u) == 1.0
  {
  }

  /** Converting from `u` to `w` directly is the same as going through `v`. */
  lemma DistanceFactorsCompose(u: DistanceUnit, v: DistanceUnit, w: DistanceUnit)
    ensures DistanceField(DistanceFactors(u), w)
      == DistanceField(DistanceFactors(u), v) * DistanceField(DistanceFactors(v), w)
  {
  }

  /** Position of a time unit from the finest to the coarsest. */
  function TimeRank(u: TimeUnit): nat
  {
    match u
    case Nanoseconds => 0
    case Microseconds => 1
    case Milliseconds => 2
    case Seconds => 3
    case Minutes => 4
    case Hours => 5
  }

  /** The decimal units, whose factors are exact powers of ten. */
  predicate IsDecimalTime(u: TimeUnit)
  {
    TimeRank(u) <= 3
  }

  /** Among nanoseconds, microseconds, milliseconds and seconds the factors
      are exact reciprocals. */
  lemma DecimalTimeFactorsAreReciprocal(u: TimeUnit, v: TimeUnit)
    requires IsDecimalTime(u) && IsDecimalTime(v)
    ensures TimeField(TimeFactors(u), v) * TimeField(TimeFactors(v), u) == 1.0
  {
  }

  /** From a coarser unit to a finer one the factors are whole numbers that
      compose: hours to nanoseconds is hours to seconds times seconds to
      nanoseconds. */
  lemma CoarseToFineTimeFactorsCompose(u: TimeUnit, v: TimeUnit, w: TimeUnit)
    requires TimeRank(u) >= TimeRank(v) >= TimeRank(w)
    ensures TimeField(TimeFactors(u), w) == TimeField(TimeFactors(u), v) * TimeField(TimeFactors(v), w)
  {
  }

  /** The minute and hour factors toward finer units are written as rounded
      decimals, so they are not exact reciprocals: seconds to minutes is
      0.016666666666666666, which times 60 falls short of 1. */
  lemma MinuteFactorsAreRounded()
    ensures TimeField(TimeFactors(Seconds), Minutes) * TimeField(TimeFactors(Minutes), Seconds) < 1.0
    ensures TimeField(TimeFactors(Nanoseconds), Minutes) * TimeField(TimeFactors(Minutes), Nanoseconds) > 1.0
  {
  }

  /** The velocity table's own entries: 1 for thirteen units, and for five
      units a different value. */
  lemma VelocityOwnEntry(u: VelocityUnit)
    ensures u == CentimetersPerSecond ==> VelocityField(VelocityFactors(u), u) == 100.0
    ensures u == MetersPerMillisecond ==> VelocityField(VelocityFactors(u), u) == 0.006
    ensures u == MetersPerSecond ==> VelocityField(VelocityFactors(u), u) == 1000.0
    ensures u == MilimetersPerMicrosecond ==> VelocityField(VelocityFactors(u), u) == 10.0
    ensures u == MilimetersPerMillisecond ==> VelocityField(VelocityFactors(u), u) == 0.006
    ensures u !in {CentimetersPerSecond, MetersPerMillisecond, MetersPerSecond,
                   MilimetersPerMicrosecond, MilimetersPerMillisecond}
      ==> VelocityField(VelocityFactors(u), u) == 1.0
  {
  }
}
