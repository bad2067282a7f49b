/** The `ExpressionType` class of extendedFunctions/uri/types.ts: the function names of the uri extension pack.
    Every member of the class is a static read-only string, so the catalogue is a constant:
    one constructor per member, and `Name` gives the member's string. */
module UriTypes {

  datatype ExpressionType =
    | UriHost
    | UriPath
    | UriPathAndQuery
    | UriPort
    | UriQuery
    | UriScheme

  /** The registry key of a catalogue member. */
  function Name(t: ExpressionType): string {
    match t
    case UriHost => "uriHost"
    case UriPath => "uriPath"
    case UriPathAndQuery => "uriPathAndQuery"
    case UriPort => "uriPort"
    case UriQuery => "uriQuery"
    case UriScheme => "uriScheme"
  }
}
