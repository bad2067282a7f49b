/** The `ExpressionType` class of extendedFunctions/timex/types.ts: the function names of the timex extension pack.
    Every member of the class is a static read-only string, so the catalogue is a constant:
    one constructor per member, and `Name` gives the member's string. */
module TimexTypes {

  datatype ExpressionType =
    | IsDefinite
    | IsTime
    | IsDuration
    | IsDate
    | IsTimeRange
    | IsDateRange
    | IsPresent
    | GetNextViableDate
    | GetPreviousViableDate
    | GetNextViableTime
    | GetPreviousViableTime
    | TimexResolve

  /** The registry key of a catalogue member. */
  function Name(t: ExpressionType): string {
    match t
    case IsDefinite => "isDefinite"
    case IsTime => "isTime"
    case IsDuration => "isDuration"
    case IsDate => "isDate"
    case IsTimeRange => "isTimeRange"
    case IsDateRange => "isDateRange"
    case IsPresent => "isPresent"
    case GetNextViableDate => "getNextViableDate"
    case GetPreviousViableDate => "getPreviousViableDate"
    case GetNextViableTime => "getNextViableTime"
    case GetPreviousViableTime => "getPreviousViableTime"
    case TimexResolve => "resolve"
  }
}
