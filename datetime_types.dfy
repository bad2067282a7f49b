/** The `ExpressionType` class of extendedFunctions/datetime/types.ts: the function names of the datetime extension pack.
    Every member of the class is a static read-only string, so the catalogue is a constant:
    one constructor per member, and `Name` gives the member's string. */
module DatetimeTypes {

  datatype ExpressionType =
    | AddDays
    | AddHours
    | AddMinutes
    | AddSeconds
    | DayOfMonth
    | DayOfWeek
    | DayOfYear
    | Month
    | Date
    | Year
    | UtcNow
    | FormatDateTime
    | FormatEpoch
    | FormatTicks
    | SubtractFromTime
    | DateReadBack
    | GetTimeOfDay
    | GetFutureTime
    | GetPastTime
    | ConvertFromUTC
    | ConvertToUTC
    | AddToTime
    | StartOfDay
    | StartOfHour
    | StartOfMonth
    | Ticks
    | TicksToDays
    | TicksToHours
    | TicksToMinutes
    | DateTimeDiff

  /** The registry key of a catalogue member. */
  function Name(t: ExpressionType): string {
    match t
    case AddDays => "addDays"
    case AddHours => "addHours"
    case AddMinutes => "addMinutes"
    case AddSeconds => "addSeconds"
    case DayOfMonth => "dayOfMonth"
    case DayOfWeek => "dayOfWeek"
    case DayOfYear => "dayOfYear"
    case Month => "month"
    case Date => "date"
    case Year => "year"
    case UtcNow => "utcNow"
    case FormatDateTime => "formatDateTime"
    case FormatEpoch => "formatEpoch"
    case FormatTicks => "formatTicks"
    case SubtractFromTime => "subtractFromTime"
    case DateReadBack => "dateReadBack"
    case GetTimeOfDay => "getTimeOfDay"
    case GetFutureTime => "getFutureTime"
    case GetPastTime => "getPastTime"
    case ConvertFromUTC => "convertFromUTC"
    case ConvertToUTC => "convertToUTC"
    case AddToTime => "addToTime"
    case StartOfDay => "startOfDay"
    case StartOfHour => "startOfHour"
    case StartOfMonth => "startOfMonth"
    case Ticks => "ticks"
    case TicksToDays => "ticksToDays"
    case TicksToHours => "ticksToHours"
    case TicksToMinutes => "ticksToMinutes"
    case DateTimeDiff => "dateTimeDiff"
  }
}
