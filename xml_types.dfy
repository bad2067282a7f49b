/** The `ExpressionType` class of extendedFunctions/xml/types.ts: the function names of the xml extension pack.
    Every member of the class is a static read-only string, so the catalogue is a constant:
    one constructor per member, and `Name` gives the member's string. */
module XmlTypes {

  datatype ExpressionType =
    | XML
    | XPath

  /** The registry key of a catalogue member. */
  function Name(t: ExpressionType): string {
    match t
    case XML => "xml"
    case XPath => "xPath"
  }
}
