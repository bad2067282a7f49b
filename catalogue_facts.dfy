/** Facts about particular catalogue entries: the operator symbols of the built-in catalogue and
    the separation between catalogues that the registry relies on. */
module CatalogueFacts {
  import opened FunctionNames
  import C = CoreTypes
  import DatetimeTypes
  import TimexTypes
  import TypecheckingTypes
  import UriTypes
  import XmlTypes
  import ConversionTypes

  /** The arithmetic operators are registered under their symbols. */
  lemma ArithmeticNames()
    ensures C.Name(C.Math(C.Add)) == "+" && C.Name(C.Math(C.Subtract)) == "-"
    ensures C.Name(C.Math(C.Multiply)) == "*" && C.Name(C.Math(C.Divide)) == "/"
    ensures C.Name(C.Math(C.Power)) == "^" && C.Name(C.Math(C.Mod)) == "%"
  {
  }

  /** The comparison operators are registered under their symbols. */
  lemma ComparisonNames()
    ensures C.Name(C.Comparison(C.LessThan)) == "<" && C.Name(C.Comparison(C.LessThanOrEqual)) == "<="
    ensures C.Name(C.Comparison(C.Equal)) == "==" && C.Name(C.Comparison(C.NotEqual)) == "!="
    ensures C.Name(C.Comparison(C.GreaterThan)) == ">" && C.Name(C.Comparison(C.GreaterThanOrEqual)) == ">="
  {
  }

  /** The logic operators are registered under their symbols. */
  lemma LogicNames()
    ensures C.Name(C.Logic(C.And)) == "&&" && C.Name(C.Logic(C.Or)) == "||" && C.Name(C.Logic(C.Not)) == "!"
  {
  }

  /** String concatenation is its own function, not the `+` operator. */
  lemma ConcatIsNotAdd()
    ensures C.Name(C.String(C.Concat)) == "concat" && C.Name(C.String(C.Concat)) != C.Name(C.Math(C.Add))
  {
  }

  /** The internal node kinds are not the names of callable functions. */
  lemma NodeKindsAreNotCallable(k: C.ExpressionType, f: C.ExpressionType)
    requires k == C.Memory(C.Accessor) || k == C.Memory(C.Element) ||
             k == C.Misc(C.Constant) || k == C.Misc(C.Lambda)
    requires f == C.Object(C.GetProperty) || f == C.Memory(C.SetPathToValue) ||
             f == C.Memory(C.Coalesce)
    ensures C.Name(k) != C.Name(f)
  {
    KeyInjective(Core(k), Core(f));
  }

  predicate SameCatalogue(a: FunctionName, b: FunctionName) {
    (a.Core? && b.Core?) || (a.Datetime? && b.Datetime?) || (a.Timex? && b.Timex?) ||
    (a.Typechecking? && b.Typechecking?) || (a.Uri? && b.Uri?) || (a.Xml? && b.Xml?) ||
    (a.Conversion? && b.Conversion?) || (a.Regex? && b.Regex?)
  }

  /** Entries of two different catalogues never share a key. */
  lemma CataloguesDisjoint(a: FunctionName, b: FunctionName)
    requires !SameCatalogue(a, b)
    ensures Key(a) != Key(b)
  {
    KeyInjective(a, b);
  }

  /** Examples of the separation: date parts are not built-ins, the uri pack's names are not the
      conversion pack's uri-component names, and `jsonStringify` and `xml` are not built-ins. */
  lemma SeparationExamples()
    ensures forall c: C.ExpressionType :: C.Name(c) != "date" && C.Name(c) != "year" && C.Name(c) != "month"
    ensures forall u: UriTypes.ExpressionType :: UriTypes.Name(u) != "uriComponent" && UriTypes.Name(u) != "uriComponentToString"
    ensures forall c: C.ExpressionType :: C.Name(c) != "jsonStringify" && C.Name(c) != "xml" && C.Name(c) != "xPath"
    ensures DatetimeTypes.Name(DatetimeTypes.Date) != TimexTypes.Name(TimexTypes.IsDate)
    ensures TimexTypes.Name(TimexTypes.IsDate) != TypecheckingTypes.Name(TypecheckingTypes.IsDateTime)
  {
    forall c: C.ExpressionType
      ensures C.Name(c) != "date" && C.Name(c) != "year" && C.Name(c) != "month"
      ensures C.Name(c) != "jsonStringify" && C.Name(c) != "xml" && C.Name(c) != "xPath"
    {
      CataloguesDisjoint(Core(c), Datetime(DatetimeTypes.Date));
      CataloguesDisjoint(Core(c), Datetime(DatetimeTypes.Year));
      CataloguesDisjoint(Core(c), Datetime(DatetimeTypes.Month));
      CataloguesDisjoint(Core(c), Conversion(ConversionTypes.JsonStringify));
      CataloguesDisjoint(Core(c), Xml(XmlTypes.XML));
      CataloguesDisjoint(Core(c), Xml(XmlTypes.XPath));
    }
    forall u: UriTypes.ExpressionType
      ensures UriTypes.Name(u) != "uriComponent" && UriTypes.Name(u) != "uriComponentToString"
    {
      CataloguesDisjoint(Uri(u), Conversion(ConversionTypes.UriComponent));
      CataloguesDisjoint(Uri(u), Conversion(ConversionTypes.UriComponentToString));
    }
  }
}
