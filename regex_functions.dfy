/** The initializer of the regex extension pack (extendedFunctions/regex/index.ts): a straight-line
    sequence of `add` calls on the shared function table. */
module RegexFunctions {
  import opened Wrappers
  import opened Registry
  import FunctionNames
  import T = RegexTypes

  /** The catalogue entries the initializer registers, in the order it registers them. */
  function Entries(): seq<T.ExpressionType> {
    [T.IsMatch]
  }

  /** The initializer's `add` calls, in the order the source makes them. */
  function Registrations(): seq<Registration> {
    [
      Registration(T.Name(T.IsMatch), Evaluator.IsMatch)
    ]
  }

  /** Runs the initializer: the table afterwards is the old one with the `add` calls applied in
      order. */
  method Initialize(functions: FunctionTable)
    modifies functions
    ensures functions.entries == Apply(old(functions.entries), Registrations())
  {
    functions.Add(T.Name(T.IsMatch), Evaluator.IsMatch);
  }

  /** The evaluator class the pack registers under each of its names. */
  function EvaluatorOf(t: T.ExpressionType): Evaluator {
    match t
    case IsMatch => Evaluator.IsMatch
  }

  /** The `add` calls follow the entry list: the i-th call registers the i-th entry's name
      with that entry's evaluator class. */
  lemma RegistrationsFollowEntries()
    ensures |Registrations()| == |Entries()| == 1
    ensures forall i :: 0 <= i < |Entries()| ==>
              Registrations()[i] == Registration(T.Name(Entries()[i]), EvaluatorOf(Entries()[i]))
  {
  }

  /** No two `add` calls of the initializer use the same name. */
  lemma RegistrationsDistinct()
    ensures DistinctNames(Registrations())
  {
  }

  /** After the initializer, each name of the pack is bound to its evaluator class. */
  lemma InitializeBinds(table: Table, t: T.ExpressionType)
    ensures Get(Apply(table, Registrations()), T.Name(t)) == Some(EvaluatorOf(t))
  {
    RegistrationsFollowEntries();
    RegistrationsDistinct();
    assert t in Entries();
    var i :| 0 <= i < |Entries()| && Entries()[i] == t;
    ApplyBinds(table, Registrations(), i);
  }

  /** Every name outside the pack keeps its entry, or its absence. */
  lemma InitializeFrame(table: Table, name: string)
    requires forall t: T.ExpressionType :: name != T.Name(t)
    ensures Get(Apply(table, Registrations()), name) == Get(table, name)
  {
    RegistrationsFollowEntries();
    assert name !in Names(Registrations());
    ApplyFrame(table, Registrations(), name);
  }
}
