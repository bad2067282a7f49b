/** The `ExpressionType` class of expressionType.ts: the built-in operator and function names of
    the expression language.  Every member of the class is a static read-only string, so the
    catalogue is a constant.  The members are grouped as the class groups them (math,
    comparisons, logic, ...): one enumeration per group, one constructor per member, and `Name`
    gives the member's string. */
module CoreTypes {

  /** Math. */
  datatype MathType =
    | Add
    | Subtract
    | Multiply
    | Divide
    | Min
    | Max
    | Power
    | Mod
    | Average
    | Sum
    | Count
    | Range
    | Floor
    | Ceiling
    | Round
    | Abs
    | Sqrt
    | Rand

  /** Comparisons. */
  datatype ComparisonType =
    | LessThan
    | LessThanOrEqual
    | Equal
    | NotEqual
    | GreaterThan
    | GreaterThanOrEqual
    | Exists
    | Contains
    | Empty

  /** Logic. */
  datatype LogicType =
    | And
    | Or
    | Not

  /** String. */
  datatype StringType =
    | Concat
    | Length
    | Replace
    | ReplaceIgnoreCase
    | Split
    | Substring
    | ToLower
    | ToUpper
    | Trim
    | Join
    | EndsWith
    | StartsWith
    | CountWord
    | AddOrdinal
    | NewGuid
    | IndexOf
    | LastIndexOf
    | EOL
    | SentenceCase
    | TitleCase

  /** Memory. */
  datatype MemoryType =
    | Accessor
    | Element
    | SetPathToValue
    | Coalesce

  /** Collection. */
  datatype CollectionType =
    | CreateArray
    | First
    | Last
    | Foreach
    | Select
    | Where
    | Union
    | Intersection
    | Skip
    | Take
    | FilterNotEqual
    | SubArray
    | SortBy
    | SortByDescending
    | IndicesAndValues
    | Flatten
    | Unique
    | Reverse
    | Any
    | All

  /** Misc. */
  datatype MiscType =
    | Constant
    | Lambda
    | If

  /** Object manipulation and construction functions. */
  datatype ObjectType =
    | Json
    | AddProperty
    | RemoveProperty
    | SetProperty
    | GetProperty
    | JPath
    | Merge

  /** StringOrValue, followed by `ignore` and `optional`. */
  datatype ValueType =
    | StringOrValue
    | Ignore
    | Optional

  /** A member of the class, tagged with its group. */
  datatype ExpressionType =
    | Math(MathType)
    | Comparison(ComparisonType)
    | Logic(LogicType)
    | String(StringType)
    | Memory(MemoryType)
    | Collection(CollectionType)
    | Misc(MiscType)
    | Object(ObjectType)
    | Value(ValueType)

  /** The registry key of a catalogue member. */
  function Name(t: ExpressionType): string {
    match t
    case Math(x) => MathName(x)
    case Comparison(x) => ComparisonName(x)
    case Logic(x) => LogicName(x)
    case String(x) => StringName(x)
    case Memory(x) => MemoryName(x)
    case Collection(x) => CollectionName(x)
    case Misc(x) => MiscName(x)
    case Object(x) => ObjectName(x)
    case Value(x) => ValueName(x)
  }

  function MathName(x: MathType): string {
    match x
    case Add => "+"
    case Subtract => "-"
    case Multiply => "*"
    case Divide => "/"
    case Min => "min"
    case Max => "max"
    case Power => "^"
    case Mod => "%"
    case Average => "average"
    case Sum => "sum"
    case Count => "count"
    case Range => "range"
    case Floor => "floor"
    case Ceiling => "ceiling"
    case Round => "round"
    case Abs => "abs"
    case Sqrt => "sqrt"
    case Rand => "rand"
  }

  function ComparisonName(x: ComparisonType): string {
    match x
    case LessThan => "<"
    case LessThanOrEqual => "<="
    case Equal => "=="
    case NotEqual => "!="
    case GreaterThan => ">"
    case GreaterThanOrEqual => ">="
    case Exists => "exists"
    case Contains => "contains"
    case Empty => "empty"
  }

  function LogicName(x: LogicType): string {
    match x
    case And => "&&"
    case Or => "||"
    case Not => "!"
  }

  function StringName(x: StringType): string {
    match x
    case Concat => "concat"
    case Length => "length"
    case Replace => "replace"
    case ReplaceIgnoreCase => "replaceIgnoreCase"
    case Split => "split"
    case Substring => "substring"
    case ToLower => "toLower"
    case ToUpper => "toUpper"
    case Trim => "trim"
    case Join => "join"
    case EndsWith => "endsWith"
    case StartsWith => "startsWith"
    case CountWord => "countWord"
    case AddOrdinal => "addOrdinal"
    case NewGuid => "newGuid"
    case IndexOf => "indexOf"
    case LastIndexOf => "lastIndexOf"
    case EOL => "EOL"
    case SentenceCase => "sentenceCase"
    case TitleCase => "titleCase"
  }

  function MemoryName(x: MemoryType): string {
    match x
    case Accessor => "Accessor"
    case Element => "Element"
    case SetPathToValue => "setPathToValue"
    case Coalesce => "coalesce"
  }

  function CollectionName(x: CollectionType): string {
    match x
    case CreateArray => "createArray"
    case First => "first"
    case Last => "last"
    case Foreach => "foreach"
    case Select => "select"
    case Where => "where"
    case Union => "union"
    case Intersection => "intersection"
    case Skip => "skip"
    case Take => "take"
    case FilterNotEqual => "filterNotEqual"
    case SubArray => "subArray"
    case SortBy => "sortBy"
    case SortByDescending => "sortByDescending"
    case IndicesAndValues => "indicesAndValues"
    case Flatten => "flatten"
    case Unique => "unique"
    case Reverse => "reverse"
    case Any => "any"
    case All => "all"
  }

  function MiscName(x: MiscType): string {
    match x
    case Constant => "Constant"
    case Lambda => "Lambda"
    case If => "if"
  }

  function ObjectName(x: ObjectType): string {
    match x
    case Json => "json"
    case AddProperty => "addProperty"
    case RemoveProperty => "removeProperty"
    case SetProperty => "setProperty"
    case GetProperty => "getProperty"
    case JPath => "jPath"
    case Merge => "merge"
  }

  function ValueName(x: ValueType): string {
    match x
    case StringOrValue => "stringOrValue"
    case Ignore => "ignore"
    case Optional => "optional"
  }
}
