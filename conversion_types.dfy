/** The `ExpressionType` class of extendedFunctions/conversion/types.ts: the function names of the conversion extension pack.
    Every member of the class is a static read-only string, so the catalogue is a constant:
    one constructor per member, and `Name` gives the member's string. */
module ConversionTypes {

  datatype ExpressionType =
    | Float
    | Int
    | String
    | Bool
    | Binary
    | Base64
    | Base64ToBinary
    | Base64ToString
    | DataUri
    | DataUriToBinary
    | DataUriToString
    | UriComponent
    | UriComponentToString
    | FormatNumber
    | JsonStringify

  /** The registry key of a catalogue member. */
  function Name(t: ExpressionType): string {
    match t
    case Float => "float"
    case Int => "int"
    case String => "string"
    case Bool => "bool"
    case Binary => "binary"
    case Base64 => "base64"
    case Base64ToBinary => "base64ToBinary"
    case Base64ToString => "base64ToString"
    case DataUri => "dataUri"
    case DataUriToBinary => "dataUriToBinary"
    case DataUriToString => "dataUriToString"
    case UriComponent => "uriComponent"
    case UriComponentToString => "uriComponentToString"
    case FormatNumber => "formatNumber"
    case JsonStringify => "jsonStringify"
  }
}
