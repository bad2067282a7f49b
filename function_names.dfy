/** The key space of the function registry: every name in the built-in catalogue and in the
    catalogues of the extension packs.  `Key` gives the string a name is registered under and
    `Parse` reads a key back; the lemmas below prove the two inverse, so no two catalogue entries,
    within one catalogue or across two, share a key. */
module FunctionNames {
  import opened Wrappers
  import CoreTypes
  import DatetimeTypes
  import TimexTypes
  import TypecheckingTypes
  import UriTypes
  import XmlTypes
  import ConversionTypes
  import RegexTypes

  /** A catalogue entry, tagged with the catalogue it comes from. */
  datatype FunctionName =
    | Core(CoreTypes.ExpressionType)
    | Datetime(DatetimeTypes.ExpressionType)
    | Timex(TimexTypes.ExpressionType)
    | Typechecking(TypecheckingTypes.ExpressionType)
    | Uri(UriTypes.ExpressionType)
    | Xml(XmlTypes.ExpressionType)
    | Conversion(ConversionTypes.ExpressionType)
    | Regex(RegexTypes.ExpressionType)

  function Key(n: FunctionName): string {
    match n
    case Core(t) => CoreTypes.Name(t)
    case Datetime(t) => DatetimeTypes.Name(t)
    case Timex(t) => TimexTypes.Name(t)
    case Typechecking(t) => TypecheckingTypes.Name(t)
    case Uri(t) => UriTypes.Name(t)
    case Xml(t) => XmlTypes.Name(t)
    case Conversion(t) => ConversionTypes.Name(t)
    case Regex(t) => RegexTypes.Name(t)
  }

  /** The catalogue entry registered under `s`, if any.  The lookup first selects the keys of
      the same length, each length in a function of its own, which keeps every instance cheap
      for the verifier. */
  function Parse(s: string): Option<FunctionName> {
    if |s| == 1 then ParseLength1(s)
    else if |s| == 2 then ParseLength2(s)
    else if |s| == 3 then ParseLength3(s)
    else if |s| == 4 then ParseLength4(s)
    else if |s| == 5 then ParseLength5(s)
    else if |s| == 6 then ParseLength6(s)
    else if |s| == 7 then ParseLength7(s)
    else if |s| == 8 then ParseLength8(s)
    else if |s| == 9 then ParseLength9(s)
    else if |s| == 10 then ParseLength10(s)
    else if |s| == 11 then ParseLength11(s)
    else if |s| == 12 then ParseLength12(s)
    else if |s| == 13 then ParseLength13(s)
    else if |s| == 14 then ParseLength14(s)
    else if |s| == 15 then ParseLength15(s)
    else if |s| == 16 then ParseLength16(s)
    else if |s| == 17 then ParseLength17(s)
    else if |s| == 20 then ParseLength20(s)
    else if |s| == 21 then ParseLength21(s)
    else None
  }

  function ParseLength1(s: string): Option<FunctionName>
    requires |s| == 1
  {
    match s[0]
    case '!' => if s == "!" then Some(Core(CoreTypes.Logic(CoreTypes.Not))) else None
    case '%' => if s == "%" then Some(Core(CoreTypes.Math(CoreTypes.Mod))) else None
    case '*' => if s == "*" then Some(Core(CoreTypes.Math(CoreTypes.Multiply))) else None
    case '+' => if s == "+" then Some(Core(CoreTypes.Math(CoreTypes.Add))) else None
    case '-' => if s == "-" then Some(Core(CoreTypes.Math(CoreTypes.Subtract))) else None
    case '/' => if s == "/" then Some(Core(CoreTypes.Math(CoreTypes.Divide))) else None
    case '<' => if s == "<" then Some(Core(CoreTypes.Comparison(CoreTypes.LessThan))) else None
    case '>' => if s == ">" then Some(Core(CoreTypes.Comparison(CoreTypes.GreaterThan))) else None
    case '^' => if s == "^" then Some(Core(CoreTypes.Math(CoreTypes.Power))) else None
    case _ => None
  }

  function ParseLength2(s: string): Option<FunctionName>
    requires |s| == 2
  {
    match s[0]
    case '!' => if s == "!=" then Some(Core(CoreTypes.Comparison(CoreTypes.NotEqual))) else None
    case '&' => if s == "&&" then Some(Core(CoreTypes.Logic(CoreTypes.And))) else None
    case '<' => if s == "<=" then Some(Core(CoreTypes.Comparison(CoreTypes.LessThanOrEqual))) else None
    case '=' => if s == "==" then Some(Core(CoreTypes.Comparison(CoreTypes.Equal))) else None
    case '>' => if s == ">=" then Some(Core(CoreTypes.Comparison(CoreTypes.GreaterThanOrEqual))) else None
    case 'i' => if s == "if" then Some(Core(CoreTypes.Misc(CoreTypes.If))) else None
    case '|' => if s == "||" then Some(Core(CoreTypes.Logic(CoreTypes.Or))) else None
    case _ => None
  }

  function ParseLength3(s: string): Option<FunctionName>
    requires |s| == 3
  {
    match s[2]
    case 'L' => if s == "EOL" then Some(Core(CoreTypes.String(CoreTypes.EOL))) else None
    case 'l' =>
      (match s[1]
      case 'l' => if s == "all" then Some(Core(CoreTypes.Collection(CoreTypes.All))) else None
      case 'm' => if s == "xml" then Some(Xml(XmlTypes.XML)) else None
      case _ => None)
    case 'm' => if s == "sum" then Some(Core(CoreTypes.Math(CoreTypes.Sum))) else None
    case 'n' => if s == "min" then Some(Core(CoreTypes.Math(CoreTypes.Min))) else None
    case 's' => if s == "abs" then Some(Core(CoreTypes.Math(CoreTypes.Abs))) else None
    case 't' => if s == "int" then Some(Conversion(ConversionTypes.Int)) else None
    case 'x' => if s == "max" then Some(Core(CoreTypes.Math(CoreTypes.Max))) else None
    case 'y' => if s == "any" then Some(Core(CoreTypes.Collection(CoreTypes.Any))) else None
    case _ => None
  }

  function ParseLength4(s: string): Option<FunctionName>
    requires |s| == 4
  {
    match s[3]
    case 'd' => if s == "rand" then Some(Core(CoreTypes.Math(CoreTypes.Rand))) else None
    case 'e' =>
      (match s[2]
      case 'k' => if s == "take" then Some(Core(CoreTypes.Collection(CoreTypes.Take))) else None
      case 't' => if s == "date" then Some(Datetime(DatetimeTypes.Date)) else None
      case _ => None)
    case 'l' => if s == "bool" then Some(Conversion(ConversionTypes.Bool)) else None
    case 'm' => if s == "trim" then Some(Core(CoreTypes.String(CoreTypes.Trim))) else None
    case 'n' =>
      (match s[2]
      case 'i' => if s == "join" then Some(Core(CoreTypes.String(CoreTypes.Join))) else None
      case 'o' => if s == "json" then Some(Core(CoreTypes.Object(CoreTypes.Json))) else None
      case _ => None)
    case 'p' => if s == "skip" then Some(Core(CoreTypes.Collection(CoreTypes.Skip))) else None
    case 'r' => if s == "year" then Some(Datetime(DatetimeTypes.Year)) else None
    case 't' =>
      (match s[2]
      case 'r' => if s == "sqrt" then Some(Core(CoreTypes.Math(CoreTypes.Sqrt))) else None
      case 's' => if s == "last" then Some(Core(CoreTypes.Collection(CoreTypes.Last))) else None
      case _ => None)
    case _ => None
  }

  function ParseLength5(s: string): Option<FunctionName>
    requires |s| == 5
  {
    match s[0]
    case 'c' => if s == "count" then Some(Core(CoreTypes.Math(CoreTypes.Count))) else None
    case 'e' => if s == "empty" then Some(Core(CoreTypes.Comparison(CoreTypes.Empty))) else None
    case 'f' =>
      (match s[3]
      case 'a' => if s == "float" then Some(Conversion(ConversionTypes.Float)) else None
      case 'o' => if s == "floor" then Some(Core(CoreTypes.Math(CoreTypes.Floor))) else None
      case 's' => if s == "first" then Some(Core(CoreTypes.Collection(CoreTypes.First))) else None
      case _ => None)
    case 'j' => if s == "jPath" then Some(Core(CoreTypes.Object(CoreTypes.JPath))) else None
    case 'm' =>
      (match s[4]
      case 'e' => if s == "merge" then Some(Core(CoreTypes.Object(CoreTypes.Merge))) else None
      case 'h' => if s == "month" then Some(Datetime(DatetimeTypes.Month)) else None
      case _ => None)
    case 'r' =>
      (match s[4]
      case 'd' => if s == "round" then Some(Core(CoreTypes.Math(CoreTypes.Round))) else None
      case 'e' => if s == "range" then Some(Core(CoreTypes.Math(CoreTypes.Range))) else None
      case _ => None)
    case 's' => if s == "split" then Some(Core(CoreTypes.String(CoreTypes.Split))) else None
    case 't' => if s == "ticks" then Some(Datetime(DatetimeTypes.Ticks)) else None
    case 'u' => if s == "union" then Some(Core(CoreTypes.Collection(CoreTypes.Union))) else None
    case 'w' => if s == "where" then Some(Core(CoreTypes.Collection(CoreTypes.Where))) else None
    case 'x' => if s == "xPath" then Some(Xml(XmlTypes.XPath)) else None
    case _ => None
  }

  function ParseLength6(s: string): Option<FunctionName>
    requires |s| == 6
  {
    match s[4]
    case '6' => if s == "base64" then Some(Conversion(ConversionTypes.Base64)) else None
    case 'B' => if s == "sortBy" then Some(Core(CoreTypes.Collection(CoreTypes.SortBy))) else None
    case 'a' => if s == "concat" then Some(Core(CoreTypes.String(CoreTypes.Concat))) else None
    case 'c' => if s == "select" then Some(Core(CoreTypes.Collection(CoreTypes.Select))) else None
    case 'd' => if s == "Lambda" then Some(Core(CoreTypes.Misc(CoreTypes.Lambda))) else None
    case 'm' => if s == "isTime" then Some(Timex(TimexTypes.IsTime)) else None
    case 'n' => if s == "string" then Some(Conversion(ConversionTypes.String)) else None
    case 'o' => if s == "utcNow" then Some(Datetime(DatetimeTypes.UtcNow)) else None
    case 'r' =>
      (match s[5]
      case 'e' => if s == "ignore" then Some(Core(CoreTypes.Value(CoreTypes.Ignore))) else None
      case 'y' => if s == "binary" then Some(Conversion(ConversionTypes.Binary)) else None
      case _ => None)
    case 't' =>
      (match s[5]
      case 'e' => if s == "isDate" then Some(Timex(TimexTypes.IsDate)) else None
      case 'h' => if s == "length" then Some(Core(CoreTypes.String(CoreTypes.Length))) else None
      case 's' => if s == "exists" then Some(Core(CoreTypes.Comparison(CoreTypes.Exists))) else None
      case _ => None)
    case 'u' => if s == "unique" then Some(Core(CoreTypes.Collection(CoreTypes.Unique))) else None
    case _ => None
  }

  function ParseLength7(s: string): Option<FunctionName>
    requires |s| == 7
  {
    match s[2]
    case 'A' => if s == "isArray" then Some(Typechecking(TypecheckingTypes.IsArray)) else None
    case 'F' => if s == "isFloat" then Some(Typechecking(TypecheckingTypes.IsFloat)) else None
    case 'L' => if s == "toLower" then Some(Core(CoreTypes.String(CoreTypes.ToLower))) else None
    case 'M' => if s == "isMatch" then Some(Regex(RegexTypes.IsMatch)) else None
    case 'U' => if s == "toUpper" then Some(Core(CoreTypes.String(CoreTypes.ToUpper))) else None
    case 'a' => if s == "flatten" then Some(Core(CoreTypes.Collection(CoreTypes.Flatten))) else None
    case 'd' =>
      (match s[6]
      case 'f' => if s == "indexOf" then Some(Core(CoreTypes.String(CoreTypes.IndexOf))) else None
      case 's' => if s == "addDays" then Some(Datetime(DatetimeTypes.AddDays)) else None
      case _ => None)
    case 'e' =>
      (match s[6]
      case 'e' => if s == "average" then Some(Core(CoreTypes.Math(CoreTypes.Average))) else None
      case 't' => if s == "Element" then Some(Core(CoreTypes.Memory(CoreTypes.Element))) else None
      case _ => None)
    case 'i' =>
      (match s[5]
      case 'n' => if s == "ceiling" then Some(Core(CoreTypes.Math(CoreTypes.Ceiling))) else None
      case 'r' => if s == "uriPort" then Some(Uri(UriTypes.UriPort)) else None
      case 's' => if s == "uriHost" then Some(Uri(UriTypes.UriHost)) else None
      case 't' => if s == "uriPath" then Some(Uri(UriTypes.UriPath)) else None
      case _ => None)
    case 'p' => if s == "replace" then Some(Core(CoreTypes.String(CoreTypes.Replace))) else None
    case 'r' => if s == "foreach" then Some(Core(CoreTypes.Collection(CoreTypes.Foreach))) else None
    case 's' => if s == "resolve" then Some(Timex(TimexTypes.TimexResolve)) else None
    case 't' => if s == "dataUri" then Some(Conversion(ConversionTypes.DataUri)) else None
    case 'v' => if s == "reverse" then Some(Core(CoreTypes.Collection(CoreTypes.Reverse))) else None
    case 'w' => if s == "newGuid" then Some(Core(CoreTypes.String(CoreTypes.NewGuid))) else None
    case _ => None
  }

  function ParseLength8(s: string): Option<FunctionName>
    requires |s| == 8
  {
    match s[4]
    case 'W' => if s == "endsWith" then Some(Core(CoreTypes.String(CoreTypes.EndsWith))) else None
    case 'a' => if s == "contains" then Some(Core(CoreTypes.Comparison(CoreTypes.Contains))) else None
    case 'e' => if s == "coalesce" then Some(Core(CoreTypes.Memory(CoreTypes.Coalesce))) else None
    case 'j' => if s == "isObject" then Some(Typechecking(TypecheckingTypes.IsObject)) else None
    case 'o' =>
      (match s[7]
      case 'l' => if s == "optional" then Some(Core(CoreTypes.Value(CoreTypes.Optional))) else None
      case 's' => if s == "addHours" then Some(Datetime(DatetimeTypes.AddHours)) else None
      case _ => None)
    case 'r' =>
      (match s[7]
      case 'g' => if s == "isString" then Some(Typechecking(TypecheckingTypes.IsString)) else None
      case 'y' => if s == "subArray" then Some(Core(CoreTypes.Collection(CoreTypes.SubArray))) else None
      case _ => None)
    case 's' => if s == "Accessor" then Some(Core(CoreTypes.Memory(CoreTypes.Accessor))) else None
    case 't' => if s == "Constant" then Some(Core(CoreTypes.Misc(CoreTypes.Constant))) else None
    case 'u' => if s == "uriQuery" then Some(Uri(UriTypes.UriQuery)) else None
    case _ => None
  }

  function ParseLength9(s: string): Option<FunctionName>
    requires |s| == 9
  {
    match s[5]
    case 'C' => if s == "titleCase" then Some(Core(CoreTypes.String(CoreTypes.TitleCase))) else None
    case 'T' => if s == "addToTime" then Some(Datetime(DatetimeTypes.AddToTime)) else None
    case 'W' =>
      (match s[8]
      case 'd' => if s == "countWord" then Some(Core(CoreTypes.String(CoreTypes.CountWord))) else None
      case 'k' => if s == "dayOfWeek" then Some(Datetime(DatetimeTypes.DayOfWeek)) else None
      case _ => None)
    case 'Y' => if s == "dayOfYear" then Some(Datetime(DatetimeTypes.DayOfYear)) else None
    case 'e' => if s == "isInteger" then Some(Typechecking(TypecheckingTypes.IsInteger)) else None
    case 'h' => if s == "uriScheme" then Some(Uri(UriTypes.UriScheme)) else None
    case 'l' => if s == "isBoolean" then Some(Typechecking(TypecheckingTypes.IsBoolean)) else None
    case 'r' => if s == "substring" then Some(Core(CoreTypes.String(CoreTypes.Substring))) else None
    case 's' => if s == "isPresent" then Some(Timex(TimexTypes.IsPresent)) else None
    case _ => None
  }

  function ParseLength10(s: string): Option<FunctionName>
    requires |s| == 10
  {
    match s[5]
    case 'M' => if s == "dayOfMonth" then Some(Datetime(DatetimeTypes.DayOfMonth)) else None
    case 'O' => if s == "startOfDay" then Some(Datetime(DatetimeTypes.StartOfDay)) else None
    case 'a' => if s == "isDuration" then Some(Timex(TimexTypes.IsDuration)) else None
    case 'c' => if s == "addSeconds" then Some(Datetime(DatetimeTypes.AddSeconds)) else None
    case 'd' => if s == "addOrdinal" then Some(Core(CoreTypes.String(CoreTypes.AddOrdinal))) else None
    case 'e' => if s == "isDateTime" then Some(Typechecking(TypecheckingTypes.IsDateTime)) else None
    case 'i' => if s == "isDefinite" then Some(Timex(TimexTypes.IsDefinite)) else None
    case 'n' => if s == "addMinutes" then Some(Datetime(DatetimeTypes.AddMinutes)) else None
    case 's' => if s == "startsWith" then Some(Core(CoreTypes.String(CoreTypes.StartsWith))) else None
    case _ => None
  }

  function ParseLength11(s: string): Option<FunctionName>
    requires |s| == 11
  {
    match s[9]
    case 'O' => if s == "lastIndexOf" then Some(Core(CoreTypes.String(CoreTypes.LastIndexOf))) else None
    case 'a' => if s == "createArray" then Some(Core(CoreTypes.Collection(CoreTypes.CreateArray))) else None
    case 'c' => if s == "formatEpoch" then Some(Datetime(DatetimeTypes.FormatEpoch)) else None
    case 'g' =>
      (match s[4]
      case 'm' => if s == "isTimeRange" then Some(Timex(TimexTypes.IsTimeRange)) else None
      case 't' => if s == "isDateRange" then Some(Timex(TimexTypes.IsDateRange)) else None
      case _ => None)
    case 'k' => if s == "formatTicks" then Some(Datetime(DatetimeTypes.FormatTicks)) else None
    case 'm' => if s == "getPastTime" then Some(Datetime(DatetimeTypes.GetPastTime)) else None
    case 't' =>
      (match s[0]
      case 'a' => if s == "addProperty" then Some(Core(CoreTypes.Object(CoreTypes.AddProperty))) else None
      case 'g' => if s == "getProperty" then Some(Core(CoreTypes.Object(CoreTypes.GetProperty))) else None
      case 's' => if s == "setProperty" then Some(Core(CoreTypes.Object(CoreTypes.SetProperty))) else None
      case _ => None)
    case 'u' => if s == "startOfHour" then Some(Datetime(DatetimeTypes.StartOfHour)) else None
    case 'y' => if s == "ticksToDays" then Some(Datetime(DatetimeTypes.TicksToDays)) else None
    case _ => None
  }

  function ParseLength12(s: string): Option<FunctionName>
    requires |s| == 12
  {
    match s[11]
    case 'C' => if s == "convertToUTC" then Some(Datetime(DatetimeTypes.ConvertToUTC)) else None
    case 'e' => if s == "sentenceCase" then Some(Core(CoreTypes.String(CoreTypes.SentenceCase))) else None
    case 'f' => if s == "dateTimeDiff" then Some(Datetime(DatetimeTypes.DateTimeDiff)) else None
    case 'h' => if s == "startOfMonth" then Some(Datetime(DatetimeTypes.StartOfMonth)) else None
    case 'k' => if s == "dateReadBack" then Some(Datetime(DatetimeTypes.DateReadBack)) else None
    case 'n' => if s == "intersection" then Some(Core(CoreTypes.Collection(CoreTypes.Intersection))) else None
    case 'r' => if s == "formatNumber" then Some(Conversion(ConversionTypes.FormatNumber)) else None
    case 's' => if s == "ticksToHours" then Some(Datetime(DatetimeTypes.TicksToHours)) else None
    case 't' => if s == "uriComponent" then Some(Conversion(ConversionTypes.UriComponent)) else None
    case 'y' => if s == "getTimeOfDay" then Some(Datetime(DatetimeTypes.GetTimeOfDay)) else None
    case _ => None
  }

  function ParseLength13(s: string): Option<FunctionName>
    requires |s| == 13
  {
    match s[11]
    case 'f' => if s == "jsonStringify" then Some(Conversion(ConversionTypes.JsonStringify)) else None
    case 'm' => if s == "getFutureTime" then Some(Datetime(DatetimeTypes.GetFutureTime)) else None
    case 'u' => if s == "stringOrValue" then Some(Core(CoreTypes.Value(CoreTypes.StringOrValue))) else None
    case _ => None
  }

  function ParseLength14(s: string): Option<FunctionName>
    requires |s| == 14
  {
    match s[12]
    case 'T' => if s == "convertFromUTC" then Some(Datetime(DatetimeTypes.ConvertFromUTC)) else None
    case 'a' => if s == "filterNotEqual" then Some(Core(CoreTypes.Collection(CoreTypes.FilterNotEqual))) else None
    case 'e' => if s == "ticksToMinutes" then Some(Datetime(DatetimeTypes.TicksToMinutes)) else None
    case 'm' => if s == "formatDateTime" then Some(Datetime(DatetimeTypes.FormatDateTime)) else None
    case 'n' => if s == "base64ToString" then Some(Conversion(ConversionTypes.Base64ToString)) else None
    case 'r' => if s == "base64ToBinary" then Some(Conversion(ConversionTypes.Base64ToBinary)) else None
    case 't' => if s == "removeProperty" then Some(Core(CoreTypes.Object(CoreTypes.RemoveProperty))) else None
    case 'u' => if s == "setPathToValue" then Some(Core(CoreTypes.Memory(CoreTypes.SetPathToValue))) else None
    case _ => None
  }

  function ParseLength15(s: string): Option<FunctionName>
    requires |s| == 15
  {
    match s[12]
    case 'a' => if s == "dataUriToBinary" then Some(Conversion(ConversionTypes.DataUriToBinary)) else None
    case 'e' => if s == "uriPathAndQuery" then Some(Uri(UriTypes.UriPathAndQuery)) else None
    case 'i' => if s == "dataUriToString" then Some(Conversion(ConversionTypes.DataUriToString)) else None
    case _ => None
  }

  function ParseLength16(s: string): Option<FunctionName>
    requires |s| == 16
  {
    match s[15]
    case 'e' => if s == "subtractFromTime" then Some(Datetime(DatetimeTypes.SubtractFromTime)) else None
    case 'g' => if s == "sortByDescending" then Some(Core(CoreTypes.Collection(CoreTypes.SortByDescending))) else None
    case 's' => if s == "indicesAndValues" then Some(Core(CoreTypes.Collection(CoreTypes.IndicesAndValues))) else None
    case _ => None
  }

  function ParseLength17(s: string): Option<FunctionName>
    requires |s| == 17
  {
    match s[15]
    case 'm' => if s == "getNextViableTime" then Some(Timex(TimexTypes.GetNextViableTime)) else None
    case 's' => if s == "replaceIgnoreCase" then Some(Core(CoreTypes.String(CoreTypes.ReplaceIgnoreCase))) else None
    case 't' => if s == "getNextViableDate" then Some(Timex(TimexTypes.GetNextViableDate)) else None
    case _ => None
  }

  function ParseLength20(s: string): Option<FunctionName>
    requires |s| == 20
  {
    if s == "uriComponentToString" then Some(Conversion(ConversionTypes.UriComponentToString)) else None
  }

  function ParseLength21(s: string): Option<FunctionName>
    requires |s| == 21
  {
    match s[19]
    case 'm' => if s == "getPreviousViableTime" then Some(Timex(TimexTypes.GetPreviousViableTime)) else None
    case 't' => if s == "getPreviousViableDate" then Some(Timex(TimexTypes.GetPreviousViableDate)) else None
    case _ => None
  }

  lemma ParseCoreKey(t: CoreTypes.ExpressionType)
    ensures Parse(Key(Core(t))) == Some(Core(t))
  {
    match t
    case Math(x) => ParseMathKey(x);
    case Comparison(x) => ParseComparisonKey(x);
    case Logic(x) => ParseLogicKey(x);
    case String(x) => ParseStringKey(x);
    case Memory(x) => ParseMemoryKey(x);
    case Collection(x) => ParseCollectionKey(x);
    case Misc(x) => ParseMiscKey(x);
    case Object(x) => ParseObjectKey(x);
    case Value(x) => ParseValueKey(x);
  }

  lemma ParseMathKey(x: CoreTypes.MathType)
    ensures Parse(Key(Core(CoreTypes.Math(x)))) == Some(Core(CoreTypes.Math(x)))
  {
    match x { case _ => }
  }

  lemma ParseComparisonKey(x: CoreTypes.ComparisonType)
    ensures Parse(Key(Core(CoreTypes.Comparison(x)))) == Some(Core(CoreTypes.Comparison(x)))
  {
    match x { case _ => }
  }

  lemma ParseLogicKey(x: CoreTypes.LogicType)
    ensures Parse(Key(Core(CoreTypes.Logic(x)))) == Some(Core(CoreTypes.Logic(x)))
  {
    match x { case _ => }
  }

  lemma ParseStringKey(x: CoreTypes.StringType)
    ensures Parse(Key(Core(CoreTypes.String(x)))) == Some(Core(CoreTypes.String(x)))
  {
    match x { case _ => }
  }

  lemma ParseMemoryKey(x: CoreTypes.MemoryType)
    ensures Parse(Key(Core(CoreTypes.Memory(x)))) == Some(Core(CoreTypes.Memory(x)))
  {
    match x { case _ => }
  }

  lemma ParseCollectionKey(x: CoreTypes.CollectionType)
    ensures Parse(Key(Core(CoreTypes.Collection(x)))) == Some(Core(CoreTypes.Collection(x)))
  {
    match x { case _ => }
  }

  lemma ParseMiscKey(x: CoreTypes.MiscType)
    ensures Parse(Key(Core(CoreTypes.Misc(x)))) == Some(Core(CoreTypes.Misc(x)))
  {
    match x { case _ => }
  }

  lemma ParseObjectKey(x: CoreTypes.ObjectType)
    ensures Parse(Key(Core(CoreTypes.Object(x)))) == Some(Core(CoreTypes.Object(x)))
  {
    match x { case _ => }
  }

  lemma ParseValueKey(x: CoreTypes.ValueType)
    ensures Parse(Key(Core(CoreTypes.Value(x)))) == Some(Core(CoreTypes.Value(x)))
  {
    match x { case _ => }
  }

  lemma ParseDatetimeKey(t: DatetimeTypes.ExpressionType)
    ensures Parse(Key(Datetime(t))) == Some(Datetime(t))
  {
    ParseDatetimeKeys1(t);
    ParseDatetimeKeys2(t);
    ParseDatetimeKeys3(t);
  }

  /** Part 1 of 3 of the Datetime catalogue. */
  lemma ParseDatetimeKeys1(t: DatetimeTypes.ExpressionType)
    ensures (t.AddDays? || t.AddHours? || t.AddMinutes? || t.AddSeconds? || t.DayOfMonth? ||
             t.DayOfWeek? || t.DayOfYear? || t.Month? || t.Date? || t.Year?) ==>
            Parse(Key(Datetime(t))) == Some(Datetime(t))
  {
    match t
    case AddDays =>
    case AddHours =>
    case AddMinutes =>
    case AddSeconds =>
    case DayOfMonth =>
    case DayOfWeek =>
    case DayOfYear =>
    case Month =>
    case Date =>
    case Year =>
    case _ =>
  }

  /** Part 2 of 3 of the Datetime catalogue. */
  lemma ParseDatetimeKeys2(t: DatetimeTypes.ExpressionType)
    ensures (t.UtcNow? || t.FormatDateTime? || t.FormatEpoch? || t.FormatTicks? ||
             t.SubtractFromTime? || t.DateReadBack? || t.GetTimeOfDay? || t.GetFutureTime? ||
             t.GetPastTime? || t.ConvertFromUTC?) ==>
            Parse(Key(Datetime(t))) == Some(Datetime(t))
  {
    match t
    case UtcNow =>
    case FormatDateTime =>
    case FormatEpoch =>
    case FormatTicks =>
    case SubtractFromTime =>
    case DateReadBack =>
    case GetTimeOfDay =>
    case GetFutureTime =>
    case GetPastTime =>
    case ConvertFromUTC =>
    case _ =>
  }

  /** Part 3 of 3 of the Datetime catalogue. */
  lemma ParseDatetimeKeys3(t: DatetimeTypes.ExpressionType)
    ensures (t.ConvertToUTC? || t.AddToTime? || t.StartOfDay? || t.StartOfHour? ||
             t.StartOfMonth? || t.Ticks? || t.TicksToDays? || t.TicksToHours? ||
             t.TicksToMinutes? || t.DateTimeDiff?) ==>
            Parse(Key(Datetime(t))) == Some(Datetime(t))
  {
    match t
    case ConvertToUTC =>
    case AddToTime =>
    case StartOfDay =>
    case StartOfHour =>
    case StartOfMonth =>
    case Ticks =>
    case TicksToDays =>
    case TicksToHours =>
    case TicksToMinutes =>
    case DateTimeDiff =>
    case _ =>
  }

  lemma ParseTimexKey(t: TimexTypes.ExpressionType)
    ensures Parse(Key(Timex(t))) == Some(Timex(t))
  {
    match t { case _ => }
  }

  lemma ParseTypecheckingKey(t: TypecheckingTypes.ExpressionType)
    ensures Parse(Key(Typechecking(t))) == Some(Typechecking(t))
  {
    match t { case _ => }
  }

  lemma ParseUriKey(t: UriTypes.ExpressionType)
    ensures Parse(Key(Uri(t))) == Some(Uri(t))
  {
    match t { case _ => }
  }

  lemma ParseXmlKey(t: XmlTypes.ExpressionType)
    ensures Parse(Key(Xml(t))) == Some(Xml(t))
  {
    match t { case _ => }
  }

  lemma ParseConversionKey(t: ConversionTypes.ExpressionType)
    ensures Parse(Key(Conversion(t))) == Some(Conversion(t))
  {
    match t { case _ => }
  }

  lemma ParseRegexKey(t: RegexTypes.ExpressionType)
    ensures Parse(Key(Regex(t))) == Some(Regex(t))
  {
    match t { case _ => }
  }

  /** Reading back the key of any catalogue entry gives that entry. */
  lemma ParseKey(n: FunctionName)
    ensures Parse(Key(n)) == Some(n)
  {
    match n
    case Core(t) => ParseCoreKey(t);
    case Datetime(t) => ParseDatetimeKey(t);
    case Timex(t) => ParseTimexKey(t);
    case Typechecking(t) => ParseTypecheckingKey(t);
    case Uri(t) => ParseUriKey(t);
    case Xml(t) => ParseXmlKey(t);
    case Conversion(t) => ParseConversionKey(t);
    case Regex(t) => ParseRegexKey(t);
  }

  /** No two catalogue entries share a registry key. */
  lemma KeyInjective(a: FunctionName, b: FunctionName)
    ensures Key(a) == Key(b) <==> a == b
  {
    ParseKey(a);
    ParseKey(b);
  }
}
