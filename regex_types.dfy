/** The name the regex extension pack registers.  The pack's own name table
    (extendedFunctions/regex/types.ts) is not part of this model: its one member,
    `IsMatch`, is taken to be the string 'isMatch'. */
module RegexTypes {

  datatype ExpressionType =
    | IsMatch

  /** The registry key of a catalogue member. */
  function Name(t: ExpressionType): string {
    match t
    case IsMatch => "isMatch"
  }
}
