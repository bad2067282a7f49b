/** The initializer of the datetime extension pack (extendedFunctions/datetime/index.ts): a straight-line
    sequence of `add` calls on the shared function table. */
module DatetimeFunctions {
  import opened Wrappers
  import opened Registry
  import FunctionNames
  import T = DatetimeTypes

  /** The catalogue entries the initializer registers, in the order it registers them. */
  function Entries(): seq<T.ExpressionType> {
    [T.AddDays]
  }

  /** The initializer's `add` calls, in the order the source makes them. */
  function Registrations(): seq<Registration> {
    [
      Registration(T.Name(T.AddDays), Evaluator.AddDays)
    ]
  }

  /** Runs the initializer: the table afterwards is the old one with the `add` calls applied in
      order. */
  method Initialize(functions: FunctionTable)
    modifies functions
    ensures functions.entries == Apply(old(functions.entries), Registrations())
  {
    functions.Add(T.Name(T.AddDays), Evaluator.AddDays);
  }

  /** The `add` calls follow the entry list: the i-th call registers the i-th entry's name
      with that entry's evaluator class. */
  lemma RegistrationsFollowEntries()
    ensures |Registrations()| == |Entries()| == 1
    ensures forall i :: 0 <= i < |Entries()| ==>
              Registrations()[i] == Registration(T.Name(Entries()[i]), Evaluator.AddDays)
  {
  }

  /** No two `add` calls of the initializer use the same name. */
  lemma RegistrationsDistinct()
    ensures DistinctNames(Registrations())
  {
  }

  /** After the initializer, 'addDays' is bound to the AddDays evaluator class. */
  lemma InitializeBinds(table: Table)
    ensures Get(Apply(table, Registrations()), T.Name(T.AddDays)) == Some(Evaluator.AddDays)
  {
    ApplyBinds(table, Registrations(), 0);
  }

  /** Every name other than 'addDays' keeps its entry, or its absence. */
  lemma InitializeFrame(table: Table, name: string)
    requires name != T.Name(T.AddDays)
    ensures Get(Apply(table, Registrations()), name) == Get(table, name)
  {
    assert name !in Names(Registrations());
    ApplyFrame(table, Registrations(), name);
  }

  /** The other 29 names of the datetime catalogue ('addHours', 'utcNow', ...) are not
      registered by this initializer. */
  lemma InitializeSkipsOtherNames(table: Table, t: T.ExpressionType)
    requires t != T.AddDays
    ensures Get(Apply(table, Registrations()), T.Name(t)) == Get(table, T.Name(t))
  {
    FunctionNames.KeyInjective(FunctionNames.Datetime(t), FunctionNames.Datetime(T.AddDays));
    InitializeFrame(table, T.Name(t));
  }
}
