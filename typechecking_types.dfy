/** The `ExpressionType` class of extendedFunctions/typechecking/types.ts: the function names of the typechecking extension pack.
    Every member of the class is a static read-only string, so the catalogue is a constant:
    one constructor per member, and `Name` gives the member's string. */
module TypecheckingTypes {

  datatype ExpressionType =
    | IsString
    | IsInteger
    | IsArray
    | IsObject
    | IsFloat
    | IsDateTime
    | IsBoolean

  /** The registry key of a catalogue member. */
  function Name(t: ExpressionType): string {
    match t
    case IsString => "isString"
    case IsInteger => "isInteger"
    case IsArray => "isArray"
    case IsObject => "isObject"
    case IsFloat => "isFloat"
    case IsDateTime => "isDateTime"
    case IsBoolean => "isBoolean"
  }
}
