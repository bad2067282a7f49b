/** The `bool` conversion evaluator (`BoolFunc`): one registry entry whose value is the truthiness
    of its single argument.  The truthiness test `isLogicTrue` and the expression value model are
    not part of this model; `isLogicTrue` is a parameter over an arbitrary value type `V`, and
    `undefined` is the value JavaScript reads from a missing argument. */
module BoolFunc {
  import opened Wrappers
  import ConversionTypes
  import Registry

  /** The name the constructor hands to its superclass: the conversion catalogue's `Bool`. */
  function Name(): (r: string)
    ensures r == ConversionTypes.Name(ConversionTypes.Bool) && r == "bool"
  {
    ConversionTypes.Name(ConversionTypes.Bool)
  }

  /** The registry entry a `BoolFunc` instance provides. */
  function Entry(): (r: Registry.Registration)
    ensures r.name == "bool" && r.evaluator == Registry.BoolFunc
  {
    Registry.Registration(Name(), Registry.BoolFunc)
  }

  /** `validateUnary`: the call must have exactly one argument. */
  predicate ValidateUnary<V>(args: seq<V>) {
    |args| == 1
  }

  /** `args[0]`, which is the value `undefined` when there are no arguments. */
  function First<V>(args: seq<V>, undefined: V): V {
    if |args| > 0 then args[0] else undefined
  }

  /** The static `func`: the truthiness of the first argument. */
  function Func<V>(args: seq<V>, isLogicTrue: V -> bool, undefined: V): bool {
    isLogicTrue(First(args, undefined))
  }

  /** Evaluating `bool(...)`: rejected unless there is exactly one argument, otherwise `func`. */
  function Evaluate<V>(args: seq<V>, isLogicTrue: V -> bool, undefined: V): (r: Option<bool>)
    ensures r.Some? <==> |args| == 1
    ensures r.Some? ==> r.value == isLogicTrue(args[0])
  {
    if ValidateUnary(args) then Some(Func(args, isLogicTrue, undefined)) else None
  }

  /** The result depends on the first argument only: calls that agree on it agree. */
  lemma FirstArgumentOnly<V>(a: seq<V>, b: seq<V>, isLogicTrue: V -> bool, undefined: V)
    requires |a| >= 1 && |b| >= 1 && a[0] == b[0]
    ensures Func(a, isLogicTrue, undefined) == Func(b, isLogicTrue, undefined)
  {
  }
}
